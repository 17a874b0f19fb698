/**
 * What holds of the state machine under every interleaving of calls, hook returns, listener
 * cancels, scheduling, settlements and destruction.
 */
module StateMachineSafety {
  import opened JsString
  import opened Wrappers
  import opened StateMachine

  // ----- one connected path of enabled transitions -----

  /** The edges lead from `a` to `b`, each starting where the one before ended. */
  ghost predicate Connected(a: string, edges: seq<Edge>, b: string)
    decreases |edges|
  {
    if edges == [] then a == b
    else edges[0].from == a && Connected(edges[0].to, edges[1..], b)
  }

  lemma {:induction false} ConnectedSnoc(a: string, edges: seq<Edge>, b: string, e: Edge)
    requires Connected(a, edges, b) && e.from == b
    ensures Connected(a, edges + [e], e.to)
    decreases |edges|
  {
    if edges == [] {
      assert [e][1..] == [];
    } else {
      ConnectedSnoc(edges[0].to, edges[1..], b, e);
      assert (edges + [e])[1..] == edges[1..] + [e];
    }
  }

  /** Call `call` of `transition` from `from` may enter `to`: the table says so or its hook did. */
  predicate Justified(table: Table, asked: set<(nat, string)>, call: nat, transition: string, from: string, to: string) {
    var found := Lookup(table, from, transition);
    found.Some? && (found.value == to || (call, to) in asked)
  }

  predicate FrameJustified(table: Table, asked: set<(nat, string)>, f: Frame) {
    match f
    case InHook(_, t, from, target) => Lookup(table, from, t) == Some(target)
    case InListeners(call, t, from, Enter(to)) => Justified(table, asked, call, t, from, to)
    case InListeners(call, t, from, Defer(to)) => Justified(table, asked, call, t, from, to)
    case InListeners(_, _, _, Cancelled) => true
  }

  predicate WaitingJustified(table: Table, asked: set<(nat, string)>, k: Continuation) {
    k.FinishLater? ==> Justified(table, asked, k.call, k.transition, k.from, k.target)
  }

  ghost predicate PathInv(table: Table, initial: string, m: Machine) {
    && Connected(initial, m.history, m.state)
    && (forall e <- m.history :: Justified(table, m.asked, e.call, e.transition, e.from, e.to))
    && (forall f <- m.frames :: FrameJustified(table, m.asked, f))
    && (forall k <- m.waiting :: WaitingJustified(table, m.asked, k))
  }

  /** A cancel touches no frame but its own, and only to cancel it. */
  lemma {:induction false} CancelInMembers(frames: seq<Frame>, call: nat)
    ensures forall f <- CancelIn(frames, call) ::
              || f in frames
              || (f.InListeners? && f.next == Cancelled && exists g <- frames :: g.InListeners? && g.call == f.call == call)
  {
    if frames != [] {
      CancelInMembers(frames[1..], call);
      assert frames[0] in frames && forall g <- frames[1..] :: g in frames;
    }
  }

  lemma JustifiedStays(table: Table, m: Machine, asked: set<(nat, string)>)
    requires m.asked <= asked
    ensures forall f <- m.frames :: FrameJustified(table, m.asked, f) ==> FrameJustified(table, asked, f)
    ensures forall k <- m.waiting :: WaitingJustified(table, m.asked, k) ==> WaitingJustified(table, asked, k)
    ensures forall e <- m.history :: Justified(table, m.asked, e.call, e.transition, e.from, e.to)
                                     ==> Justified(table, asked, e.call, e.transition, e.from, e.to)
  {
  }

  lemma HookKeepsPath(table: Table, initial: string, m: Machine, r: HookResult)
    requires PathInv(table, initial, m)
    ensures PathInv(table, initial, AfterHook(m, r))
  {
    var n := AfterHook(m, r);
    JustifiedStays(table, m, n.asked);
    assert m.frames != [] ==> FrameJustified(table, m.asked, Last(m.frames));
    assert n.frames != m.frames ==> forall f <- Pop(m.frames) :: f in m.frames;
  }

  lemma ListenersKeepPath(table: Table, initial: string, m: Machine)
    requires PathInv(table, initial, m)
    ensures PathInv(table, initial, AfterListeners(m))
  {
    var n := AfterListeners(m);
    assert m.frames != [] ==> FrameJustified(table, m.asked, Last(m.frames));
    assert n.frames != m.frames ==> forall f <- Pop(m.frames) :: f in m.frames;
    if n.history != m.history {
      ConnectedSnoc(initial, m.history, m.state, Last(n.history));
    }
  }

  lemma SettleKeepsPath(table: Table, initial: string, m: Machine, i: nat)
    requires PathInv(table, initial, m)
    ensures PathInv(table, initial, OnResolve(table, m, i)) && PathInv(table, initial, OnReject(m, i))
  {
    if i < |m.waiting| {
      assert WaitingJustified(table, m.asked, m.waiting[i]);
      assert forall k <- Remove(m.waiting, i) :: k in m.waiting;
    }
  }

  lemma StepKeepsPath(table: Table, initial: string, m: Machine, e: Event)
    requires PathInv(table, initial, m)
    ensures PathInv(table, initial, Step(table, m, e))
  {
    hide AfterHook, AfterListeners, OnResolve, OnReject;
    match e
    case Cancel(call) => CancelInMembers(m.frames, call);
    case HookReturns(r) => HookKeepsPath(table, initial, m, r);
    case ListenersReturn => ListenersKeepPath(table, initial, m);
    case Resolve(i) => SettleKeepsPath(table, initial, m, i);
    case Reject(i) => SettleKeepsPath(table, initial, m, i);
    case _ =>
  }

  lemma {:induction false} RunKeepsPath(table: Table, initial: string, m: Machine, events: seq<Event>)
    requires PathInv(table, initial, m)
    ensures PathInv(table, initial, Run(table, m, events))
    decreases |events|
  {
    hide PathInv, Step;
    if events != [] {
      StepKeepsPath(table, initial, m, events[0]);
      RunKeepsPath(table, initial, Step(table, m, events[0]), events[1..]);
    }
  }

  /** Main result: the committed changes form one connected path from the initial state to the
      current one, each a transition enabled in its source, going where the table says or to a
      state that its own hook asked for. */
  lemma OneConnectedPath(table: Table, initial: string, events: seq<Event>)
    ensures var m := Run(table, Start(initial), events);
            && Connected(initial, m.history, m.state)
            && forall e <- m.history :: Justified(table, m.asked, e.call, e.transition, e.from, e.to)
  {
    RunKeepsPath(table, initial, Start(initial), events);
  }

  // ----- a call commits at most once -----

  function InFrames(frames: seq<Frame>, id: nat): nat {
    if frames == [] then 0 else (if frames[0].call == id then 1 else 0) + InFrames(frames[1..], id)
  }

  function InWaiting(ks: seq<Continuation>, id: nat): nat {
    if ks == [] then 0
    else (if ks[0].FinishLater? && ks[0].call == id then 1 else 0) + InWaiting(ks[1..], id)
  }

  function InHistory(edges: seq<Edge>, id: nat): nat {
    if edges == [] then 0 else (if edges[0].call == id then 1 else 0) + InHistory(edges[1..], id)
  }

  /** In how many places call `id` is: on the stack, waiting for a promise, or committed. */
  function Places(m: Machine, id: nat): nat {
    InFrames(m.frames, id) + InWaiting(m.waiting, id) + InHistory(m.history, id)
  }

  /** No call is in two places, and no unused number is anywhere. */
  ghost predicate Linear(m: Machine) {
    forall id: nat :: Places(m, id) <= (if id < m.calls then 1 else 0)
  }

  lemma {:induction false} InFramesConcat(a: seq<Frame>, b: seq<Frame>, id: nat)
    ensures InFrames(a + b, id) == InFrames(a, id) + InFrames(b, id)
  {
    if a == [] {
      assert a + b == b;
    } else {
      InFramesConcat(a[1..], b, id);
      assert (a + b)[1..] == a[1..] + b;
    }
  }

  lemma {:induction false} InWaitingConcat(a: seq<Continuation>, b: seq<Continuation>, id: nat)
    ensures InWaiting(a + b, id) == InWaiting(a, id) + InWaiting(b, id)
  {
    if a == [] {
      assert a + b == b;
    } else {
      InWaitingConcat(a[1..], b, id);
      assert (a + b)[1..] == a[1..] + b;
    }
  }

  lemma {:induction false} InHistoryConcat(a: seq<Edge>, b: seq<Edge>, id: nat)
    ensures InHistory(a + b, id) == InHistory(a, id) + InHistory(b, id)
  {
    if a == [] {
      assert a + b == b;
    } else {
      InHistoryConcat(a[1..], b, id);
      assert (a + b)[1..] == a[1..] + b;
    }
  }

  lemma InFramesPop(frames: seq<Frame>, id: nat)
    requires frames != []
    ensures InFrames(frames, id) == InFrames(Pop(frames), id) + (if Last(frames).call == id then 1 else 0)
  {
    InFramesConcat(Pop(frames), [Last(frames)], id);
    assert frames == Pop(frames) + [Last(frames)];
  }

  lemma InWaitingRemove(ks: seq<Continuation>, i: nat, id: nat)
    requires i < |ks|
    ensures InWaiting(ks, id)
            == InWaiting(Remove(ks, i), id) + (if ks[i].FinishLater? && ks[i].call == id then 1 else 0)
  {
    assert ks == ks[..i] + ([ks[i]] + ks[i + 1..]);
    InWaitingConcat(ks[..i], [ks[i]] + ks[i + 1..], id);
    InWaitingConcat([ks[i]], ks[i + 1..], id);
    InWaitingConcat(ks[..i], ks[i + 1..], id);
  }

  lemma {:induction false} InCancelled(frames: seq<Frame>, call: nat, id: nat)
    ensures InFrames(CancelIn(frames, call), id) == InFrames(frames, id)
  {
    if frames != [] {
      InCancelled(frames[1..], call, id);
      assert CancelIn(frames, call)[1..] == CancelIn(frames[1..], call);
    }
  }

  /** From `m` to `n` no call gained a place, but for the next unused number if it was taken. */
  predicate NoNewPlace(m: Machine, n: Machine, id: nat) {
    || (n.calls == m.calls && Places(n, id) <= Places(m, id))
    || (n.calls == m.calls + 1 && Places(n, id) <= Places(m, id) + (if id == m.calls then 1 else 0))
  }

  lemma BeginPlaces(table: Table, m: Machine, t: string, id: nat)
    ensures NoNewPlace(m, Begin(table, m, t), id)
  {
    if Accepts(table, m, t) {
      InFramesConcat(m.frames, [Last(Begin(table, m, t).frames)], id);
    }
  }

  lemma AfterHookPlaces(m: Machine, r: HookResult, id: nat)
    ensures NoNewPlace(m, AfterHook(m, r), id)
  {
    if m.frames != [] && Last(m.frames).InHook? {
      InFramesPop(m.frames, id);
      var n := AfterHook(m, r);
      if !(m.destroyed || r.Throws?) {
        InFramesConcat(Pop(m.frames), [Last(n.frames)], id);
      }
    }
  }

  lemma AfterListenersPlaces(m: Machine, id: nat)
    ensures NoNewPlace(m, AfterListeners(m), id)
  {
    if m.frames != [] && Last(m.frames).InListeners? {
      InFramesPop(m.frames, id);
      var f := Last(m.frames);
      match f.next
      case Defer(t) =>
        InWaitingConcat(m.waiting, [FinishLater(f.call, f.transition, f.from, t)], id);
      case Enter(s) =>
        InHistoryConcat(m.history, [Edge(f.call, f.from, f.transition, s)], id);
      case Cancelled =>
    }
  }

  lemma SettlePlaces(table: Table, m: Machine, i: nat, id: nat)
    ensures NoNewPlace(m, OnResolve(table, m, i), id) && NoNewPlace(m, OnReject(m, i), id)
  {
    if i < |m.waiting| {
      InWaitingRemove(m.waiting, i, id);
      var rest := m.(waiting := Remove(m.waiting, i));
      match m.waiting[i]
      case TransitionLater(t) => BeginPlaces(table, rest.(deferred := None), t, id);
      case FinishLater(call, t, from, target) =>
        InFramesConcat(m.frames, [InListeners(call, t, from, Enter(target))], id);
      case ClearOnReject =>
    }
  }

  lemma StepPlaces(table: Table, m: Machine, e: Event, id: nat)
    ensures NoNewPlace(m, Step(table, m, e), id)
  {
    hide Begin, AfterHook, AfterListeners, OnResolve, OnReject;
    match e
    case Call(t) => BeginPlaces(table, m, t, id);
    case HookReturns(r) => AfterHookPlaces(m, r, id);
    case Cancel(call) => InCancelled(m.frames, call, id);
    case ListenersReturn => AfterListenersPlaces(m, id);
    case DeferState(t) => InWaitingConcat(m.waiting, [ClearOnReject], id);
    case DeferTransition(t) => InWaitingConcat(m.waiting, [TransitionLater(t)], id);
    case Resolve(i) => SettlePlaces(table, m, i, id);
    case Reject(i) => SettlePlaces(table, m, i, id);
    case Destroy =>
  }

  lemma StepKeepsLinear(table: Table, m: Machine, e: Event)
    requires Linear(m)
    ensures Linear(Step(table, m, e))
  {
    hide Step, Places;
    var n := Step(table, m, e);
    forall id: nat
      ensures Places(n, id) <= (if id < n.calls then 1 else 0)
    {
      StepPlaces(table, m, e, id);
    }
  }

  lemma {:induction false} RunKeepsLinear(table: Table, m: Machine, events: seq<Event>)
    requires Linear(m)
    ensures Linear(Run(table, m, events))
    decreases |events|
  {
    hide Linear, Step;
    if events != [] {
      StepKeepsLinear(table, m, events[0]);
      RunKeepsLinear(table, Step(table, m, events[0]), events[1..]);
    }
  }

  lemma {:induction false} HistoryCounted(edges: seq<Edge>, i: nat)
    requires i < |edges|
    ensures InHistory(edges, edges[i].call) >= 1
    ensures forall j :: i < j < |edges| && edges[j].call == edges[i].call ==> InHistory(edges, edges[i].call) >= 2
  {
    if i > 0 {
      HistoryCounted(edges[1..], i - 1);
      assert forall j :: i < j < |edges| ==> edges[j] == edges[1..][j - 1];
    } else {
      forall j | 0 < j < |edges| && edges[j].call == edges[0].call
        ensures InHistory(edges, edges[0].call) >= 2
      {
        HistoryCounted(edges[1..], j - 1);
      }
    }
  }

  /** Main result: whatever is deferred, released, resolved or replayed, no call commits twice. */
  lemma CallCommitsAtMostOnce(table: Table, initial: string, events: seq<Event>, i: nat, j: nat)
    requires i < j < |Run(table, Start(initial), events).history|
    ensures var m := Run(table, Start(initial), events); m.history[i].call != m.history[j].call
  {
    var m := Run(table, Start(initial), events);
    RunKeepsLinear(table, Start(initial), events);
    HistoryCounted(m.history, i);
    assert Places(m, m.history[i].call) <= 1;
  }

  // ----- calls that can no longer commit -----

  /** Call `id` may still commit: its hook or listeners run, uncancelled, or a promise holds it. */
  predicate Pending(m: Machine, id: nat) {
    || (exists f <- m.frames :: f.call == id && (f.InListeners? ==> f.next != Cancelled))
    || (exists k <- m.waiting :: k.FinishLater? && k.call == id)
  }

  /** Call `id` has been made and is over. */
  ghost predicate Over(m: Machine, id: nat) {
    id < m.calls && !Pending(m, id)
  }

  ghost predicate CommittedBy(m: Machine, id: nat) {
    exists e <- m.history :: e.call == id
  }

  lemma ReturnKeepsOver(m: Machine, r: HookResult, id: nat)
    requires Over(m, id)
    ensures Over(AfterHook(m, r), id) && Over(AfterListeners(m), id)
    ensures CommittedBy(AfterHook(m, r), id) || CommittedBy(AfterListeners(m), id) ==> CommittedBy(m, id)
  {
    if m.frames != [] {
      assert Last(m.frames) in m.frames && forall f <- Pop(m.frames) :: f in m.frames;
    }
  }

  lemma SettleKeepsOver(table: Table, m: Machine, i: nat, id: nat)
    requires Over(m, id)
    ensures Over(OnResolve(table, m, i), id) && Over(OnReject(m, i), id)
    ensures CommittedBy(OnResolve(table, m, i), id) || CommittedBy(OnReject(m, i), id) ==> CommittedBy(m, id)
  {
    if i < |m.waiting| {
      assert m.waiting[i] in m.waiting && forall k <- Remove(m.waiting, i) :: k in m.waiting;
    }
  }

  lemma StepKeepsOver(table: Table, m: Machine, e: Event, id: nat)
    requires Over(m, id)
    ensures Over(Step(table, m, e), id)
    ensures CommittedBy(Step(table, m, e), id) ==> CommittedBy(m, id)
  {
    hide AfterHook, AfterListeners, OnResolve, OnReject;
    match e
    case Cancel(call) => CancelInMembers(m.frames, call);
    case HookReturns(r) => ReturnKeepsOver(m, r, id);
    case ListenersReturn => ReturnKeepsOver(m, Nothing, id);
    case Resolve(i) => SettleKeepsOver(table, m, i, id);
    case Reject(i) => SettleKeepsOver(table, m, i, id);
    case _ =>
  }

  lemma {:induction false} RunKeepsOver(table: Table, m: Machine, events: seq<Event>, id: nat)
    requires Over(m, id)
    ensures Over(Run(table, m, events), id)
    ensures CommittedBy(Run(table, m, events), id) ==> CommittedBy(m, id)
    decreases |events|
  {
    hide Over, CommittedBy, Step;
    if events != [] {
      StepKeepsOver(table, m, events[0], id);
      RunKeepsOver(table, Step(table, m, events[0]), events[1..], id);
    }
  }

  lemma {:induction false} FrameCounted(frames: seq<Frame>, f: Frame)
    requires f in frames
    ensures InFrames(frames, f.call) >= 1
  {
    if f != frames[0] {
      FrameCounted(frames[1..], f);
    }
  }

  lemma {:induction false} WaitingCounted(ks: seq<Continuation>, k: Continuation)
    requires k in ks && k.FinishLater?
    ensures InWaiting(ks, k.call) >= 1
  {
    if k != ks[0] {
      WaitingCounted(ks[1..], k);
    }
  }

  lemma EdgeCounted(edges: seq<Edge>, e: Edge)
    requires e in edges
    ensures InHistory(edges, e.call) >= 1
  {
    var i :| 0 <= i < |edges| && edges[i] == e;
    HistoryCounted(edges, i);
  }

  /** A call found in none of the three places is over and has committed nothing. */
  lemma AbsentIsOver(m: Machine, id: nat)
    requires id < m.calls && Places(m, id) == 0
    ensures Over(m, id) && !CommittedBy(m, id)
  {
    forall f <- m.frames ensures f.call != id { FrameCounted(m.frames, f); }
    forall k <- m.waiting ensures k.FinishLater? ==> k.call != id {
      if k.FinishLater? { WaitingCounted(m.waiting, k); }
    }
    forall e <- m.history ensures e.call != id { EdgeCounted(m.history, e); }
  }

  /** Main result: a call whose hook threw commits nothing, then or ever. */
  lemma ThrowingHookNeverCommits(table: Table, initial: string, before: seq<Event>, after: seq<Event>)
    requires var m := Run(table, Start(initial), before);
             m.frames != [] && Last(m.frames).InHook?
    ensures var m := Run(table, Start(initial), before);
            var n := Step(table, m, HookReturns(Throws));
            && n == m.(frames := Pop(m.frames))
            && !CommittedBy(Run(table, n, after), Last(m.frames).call)
  {
    var m := Run(table, Start(initial), before);
    var n := Step(table, m, HookReturns(Throws));
    var id := Last(m.frames).call;
    RunKeepsLinear(table, Start(initial), before);
    InFramesPop(m.frames, id);
    assert Places(m, id) <= (if id < m.calls then 1 else 0);
    assert Places(n, id) == 0;
    AbsentIsOver(n, id);
    RunKeepsOver(table, n, after, id);
  }

  /** Main result: a rejected promise never commits the deferred state it held. */
  lemma RejectedNeverCommits(table: Table, initial: string, before: seq<Event>, i: nat, after: seq<Event>)
    requires var m := Run(table, Start(initial), before);
             i < |m.waiting| && m.waiting[i].FinishLater?
    ensures var m := Run(table, Start(initial), before);
            !CommittedBy(Run(table, Step(table, m, Reject(i)), after), m.waiting[i].call)
  {
    var m := Run(table, Start(initial), before);
    var n := Step(table, m, Reject(i));
    var id := m.waiting[i].call;
    RunKeepsLinear(table, Start(initial), before);
    InWaitingRemove(m.waiting, i, id);
    assert Places(m, id) <= (if id < m.calls then 1 else 0);
    assert Places(n, id) == 0;
    AbsentIsOver(n, id);
    RunKeepsOver(table, n, after, id);
  }

  /** The settled promise's call is in no place any more, if it was rejected, or fulfilled on a
      destroyed machine. */
  lemma SettledIsOver(table: Table, m: Machine, i: nat)
    requires Linear(m) && i < |m.waiting|
    ensures m.waiting[i].FinishLater? ==>
              var n := OnReject(m, i); Over(n, m.waiting[i].call) && !CommittedBy(n, m.waiting[i].call)
    ensures m.waiting[i].FinishLater? && m.destroyed ==>
              var n := OnResolve(table, m, i); Over(n, m.waiting[i].call) && !CommittedBy(n, m.waiting[i].call)
  {
    if m.waiting[i].FinishLater? {
      var id := m.waiting[i].call;
      InWaitingRemove(m.waiting, i, id);
      assert Places(m, id) <= (if id < m.calls then 1 else 0);
      AbsentIsOver(OnReject(m, i), id);
      if m.destroyed {
        AbsentIsOver(OnResolve(table, m, i), id);
      }
    }
  }

  /** What a hook's return makes of the innermost call. */
  lemma AfterHookIsExact(table: Table, initial: string, m: Machine, r: HookResult)
    requires PathInv(table, initial, m) && Linear(m) && m.frames != [] && Last(m.frames).InHook?
    ensures var n := AfterHook(m, r);
            if m.destroyed || r.Throws? then
              Over(n, Last(m.frames).call) && !CommittedBy(n, Last(m.frames).call)
            else FrameJustified(table, n.asked, Last(n.frames))
  {
    var id := Last(m.frames).call;
    HookKeepsPath(table, initial, m, r);
    InFramesPop(m.frames, id);
    assert Places(m, id) <= (if id < m.calls then 1 else 0);
    if m.destroyed || r.Throws? {
      AbsentIsOver(AfterHook(m, r), id);
    } else {
      assert Last(AfterHook(m, r).frames) in AfterHook(m, r).frames;
    }
  }

  /** The innermost call is justified in what it will do, and has committed nothing so far. */
  lemma TopIsJustified(table: Table, initial: string, m: Machine)
    requires PathInv(table, initial, m) && Linear(m) && m.frames != []
    ensures FrameJustified(table, m.asked, Last(m.frames)) && !CommittedBy(m, Last(m.frames).call)
  {
    var f := Last(m.frames);
    assert f in m.frames;
    InFramesPop(m.frames, f.call);
    assert Places(m, f.call) <= (if f.call < m.calls then 1 else 0);
    forall e <- m.history ensures e.call != f.call { EdgeCounted(m.history, e); }
  }

  lemma {:induction false} CancelInIsExact(frames: seq<Frame>, call: nat)
    ensures |CancelIn(frames, call)| == |frames|
    ensures forall i :: 0 <= i < |frames| ==>
              CancelIn(frames, call)[i] == if frames[i].InListeners? && frames[i].call == call
                                           then frames[i].(next := Cancelled) else frames[i]
  {
    if frames != [] {
      CancelInIsExact(frames[1..], call);
      assert CancelIn(frames, call)[1..] == CancelIn(frames[1..], call);
      assert forall i :: 1 <= i < |frames| ==> CancelIn(frames, call)[i] == CancelIn(frames[1..], call)[i - 1];
    }
  }

  lemma {:induction false} CancelInCancels(frames: seq<Frame>, call: nat)
    requires forall f <- frames :: f.call == call ==> f.InListeners?
    ensures forall f <- CancelIn(frames, call) :: f.call == call ==> f.InListeners? && f.next == Cancelled
  {
    if frames != [] {
      CancelInCancels(frames[1..], call);
    }
  }

  lemma {:induction false} FramesDistinct(frames: seq<Frame>, f: Frame, g: Frame)
    requires f in frames && g in frames && f.call == g.call && InFrames(frames, f.call) <= 1
    ensures f == g
  {
    if f != g && f == frames[0] {
      FrameCounted(frames[1..], g);
    } else if f != g && g == frames[0] {
      FrameCounted(frames[1..], f);
    } else if f != g {
      FramesDistinct(frames[1..], f, g);
    }
  }

  /** Main result: a call cancelled by a listener commits nothing, then or ever. */
  lemma CancelledNeverCommits(table: Table, initial: string, before: seq<Event>, f: Frame, after: seq<Event>)
    requires f in Run(table, Start(initial), before).frames && f.InListeners?
    ensures var m := Run(table, Start(initial), before);
            !CommittedBy(Run(table, Step(table, m, Cancel(f.call)), after), f.call)
  {
    var m := Run(table, Start(initial), before);
    var n := Step(table, m, Cancel(f.call));
    RunKeepsLinear(table, Start(initial), before);
    FrameCounted(m.frames, f);
    assert Places(m, f.call) <= (if f.call < m.calls then 1 else 0);
    forall g <- m.frames ensures g.call == f.call ==> g.InListeners? {
      if g.call == f.call { FramesDistinct(m.frames, f, g); }
    }
    CancelInCancels(m.frames, f.call);
    forall k <- m.waiting ensures k.FinishLater? ==> k.call != f.call {
      if k.FinishLater? { WaitingCounted(m.waiting, k); }
    }
    forall e <- m.history ensures e.call != f.call { EdgeCounted(m.history, e); }
    RunKeepsOver(table, n, after, f.call);
  }

  // ----- destruction -----

  /** The calls whose listeners are being told. */
  ghost predicate Listening(m: Machine, id: nat) {
    exists f <- m.frames :: f.InListeners? && f.call == id
  }

  /** Once destroyed, a step only commits or cancels calls whose listeners were being told. */
  lemma DestroyedStep(table: Table, m: Machine, e: Event)
    requires m.destroyed
    ensures var n := Step(table, m, e);
            && n.destroyed
            && (forall id :: Listening(n, id) ==> Listening(m, id))
            && ((n.history == m.history && n.state == m.state)
                || exists f :: f in m.frames && f.InListeners?
                               && n.history == m.history + [Edge(f.call, f.from, f.transition, n.state)])
  {
    var n := Step(table, m, e);
    match e
    case Cancel(call) => CancelInMembers(m.frames, call);
      assert forall f <- n.frames :: f.InListeners? ==> Listening(m, f.call);
    case ListenersReturn =>
      if m.frames != [] {
        assert Last(m.frames) in m.frames;
        assert forall f <- Pop(m.frames) :: f in m.frames;
      }
    case HookReturns(r) =>
      if m.frames != [] { assert forall f <- Pop(m.frames) :: f in m.frames; }
    case _ =>
      assert forall f <- n.frames :: f in m.frames || f.InHook?;
  }

  /** Main result: over any run of a destroyed machine, each new edge was made by a call whose
      listeners were already being told. No call or settlement begun afterwards commits, nor does
      a call whose hook had yet to return. */
  lemma {:induction false} DestroyedStartsNothing(table: Table, m: Machine, events: seq<Event>)
    requires m.destroyed
    ensures var n := Run(table, m, events);
            && m.history <= n.history
            && (forall i :: |m.history| <= i < |n.history| ==> Listening(m, n.history[i].call))
    decreases |events|
  {
    hide Step;
    if events != [] {
      var n := Step(table, m, events[0]);
      DestroyedStep(table, m, events[0]);
      DestroyedStartsNothing(table, n, events[1..]);
      assert forall i :: |m.history| <= i < |n.history| ==> Listening(m, n.history[i].call);
    }
  }

  /** Main result: destroyed while no listener is being told, the state never changes again. */
  lemma {:induction false} DestroyedAtRestIsFinal(table: Table, m: Machine, events: seq<Event>)
    requires m.destroyed && forall f <- m.frames :: f.InHook?
    ensures Run(table, m, events).state == m.state
    decreases |events|
  {
    hide Step;
    if events != [] {
      var n := Step(table, m, events[0]);
      DestroyedStep(table, m, events[0]);
      assert forall f <- n.frames :: f.InListeners? ==> Listening(n, f.call);
      assert forall id :: !Listening(m, id);
      DestroyedAtRestIsFinal(table, n, events[1..]);
    }
  }

  // ----- deferred actions -----

  /** While a state is deferred, a call gets through exactly when its target is that state; while a
      transition is deferred none does. `$canTransition` promises a call, but stays false for the
      very calls that would release the deferred state. */
  lemma PendingActionAdmits(table: Table, m: Machine, t: string)
    ensures m.deferred.Some? ==>
            (Accepts(table, m, t) <==>
              m.deferred.value.DeferredState? && Lookup(table, m.state, t) == Some(m.deferred.value.target))
    ensures CanTransition(table, m, t) <==> Accepts(table, m, t) && m.deferred.None?
  {
  }

  /** Main result: direct calls to other targets, in any number, change nothing while an action is
      pending, and no hook of theirs begins. */
  lemma {:induction false} PendingActionBlocks(table: Table, m: Machine, calls: seq<string>)
    requires m.deferred.Some?
    requires m.deferred.value.DeferredState? ==>
             forall t <- calls :: Lookup(table, m.state, t) != Some(m.deferred.value.target)
    ensures Run(table, m, seq(|calls|, i requires 0 <= i < |calls| => Call(calls[i]))) == m
    decreases |calls|
  {
    if calls != [] {
      var events := seq(|calls|, i requires 0 <= i < |calls| => Call(calls[i]));
      assert calls[0] in calls;
      PendingActionAdmits(table, m, calls[0]);
      PendingActionBlocks(table, m, calls[1..]);
      assert events[1..] == seq(|calls[1..]|, i requires 0 <= i < |calls[1..]| => Call(calls[1..][i]));
    }
  }

  /** The step makes a deferred state take effect: a call to its target releases it, or a promise
      that held it begins the delayed commit. */
  predicate TakesEffect(table: Table, m: Machine, e: Event) {
    && m.deferred.Some?
    && match e
       case Call(t) => Accepts(table, m, t)
       case Resolve(i) => i < |m.waiting| && m.waiting[i].FinishLater? && !m.destroyed
       case _ => false
  }

  /** The step leaves an action pending where there was none. */
  predicate Arms(table: Table, m: Machine, e: Event) {
    m.deferred.None? && Step(table, m, e).deferred.Some?
  }

  function Effects(table: Table, m: Machine, events: seq<Event>): nat
    decreases |events|
  {
    if events == [] then 0
    else (if TakesEffect(table, m, events[0]) then 1 else 0) + Effects(table, Step(table, m, events[0]), events[1..])
  }

  function Armings(table: Table, m: Machine, events: seq<Event>): nat
    decreases |events|
  {
    if events == [] then 0
    else (if Arms(table, m, events[0]) then 1 else 0) + Armings(table, Step(table, m, events[0]), events[1..])
  }

  /** How often an action was scheduled. */
  function Schedulings(table: Table, m: Machine, events: seq<Event>): nat
    decreases |events|
  {
    if events == [] then 0
    else (if m.deferred.None? && (events[0].DeferState? || events[0].DeferTransition?) then 1 else 0)
         + Schedulings(table, Step(table, m, events[0]), events[1..])
  }

  /** How often a deferring call returned to find that its action was no longer pending, and made
      it pending again. */
  function Rearmings(table: Table, m: Machine, events: seq<Event>): nat
    decreases |events|
  {
    if events == [] then 0
    else (if events[0].ListenersReturn? && Arms(table, m, events[0]) then 1 else 0)
         + Rearmings(table, Step(table, m, events[0]), events[1..])
  }

  lemma StepArms(table: Table, m: Machine, e: Event)
    ensures TakesEffect(table, m, e) ==> Step(table, m, e).deferred.None?
    ensures Arms(table, m, e) <==>
            m.deferred.None? && (e.DeferState? || e.DeferTransition? || (e.ListenersReturn? && Arms(table, m, e)))
  {
  }

  /** Main result: deferred states take effect at most once for each time an action became
      pending. That is once for each scheduling, unless a deferring call finds its action gone when
      its listeners return. */
  lemma {:induction false} OneEffectPerArming(table: Table, m: Machine, events: seq<Event>)
    ensures Effects(table, m, events) + (if Run(table, m, events).deferred.Some? then 1 else 0)
            <= Armings(table, m, events) + (if m.deferred.Some? then 1 else 0)
    ensures Armings(table, m, events) == Schedulings(table, m, events) + Rearmings(table, m, events)
    decreases |events|
  {
    if events != [] {
      StepArms(table, m, events[0]);
      hide Step, TakesEffect, Arms;
      OneEffectPerArming(table, Step(table, m, events[0]), events[1..]);
    }
  }

  // ----- when a released state can return -----

  /** Nothing is scheduled, and no hook returns a deferred state. */
  predicate NoScheduling(events: seq<Event>) {
    forall e <- events :: !e.DeferState? && !e.DeferTransition? && !(e.HookReturns? && e.result.ToDeferred?)
  }

  /** Some call that deferred a state is still telling its listeners. */
  predicate StillDeferring(m: Machine) {
    exists f <- m.frames :: f.InListeners? && f.next.Defer?
  }

  /** Without any more scheduling a deferred state may yet take effect. */
  ghost predicate MayTakeEffect(table: Table, m: Machine) {
    exists events :: NoScheduling(events) && Effects(table, m, events) > 0
  }

  lemma NothingDeferredStep(table: Table, m: Machine, e: Event)
    requires m.deferred.None? && !StillDeferring(m) && NoScheduling([e])
    ensures var n := Step(table, m, e);
            n.deferred.None? && !StillDeferring(n) && !TakesEffect(table, m, e)
  {
    assert e in [e];
    match e
    case Cancel(call) => CancelInMembers(m.frames, call);
    case HookReturns(r) =>
      if m.frames != [] { assert forall f <- Pop(m.frames) :: f in m.frames; }
    case ListenersReturn =>
      if m.frames != [] {
        assert Last(m.frames) in m.frames;
        assert forall f <- Pop(m.frames) :: f in m.frames;
      }
    case _ =>
  }

  lemma {:induction false} NothingDeferredNoEffect(table: Table, m: Machine, events: seq<Event>)
    requires m.deferred.None? && !StillDeferring(m) && NoScheduling(events)
    ensures Effects(table, m, events) == 0
    decreases |events|
  {
    hide Step, StillDeferring, TakesEffect;
    if events != [] {
      assert events[0] in events && forall e <- events[1..] :: e in events;
      NothingDeferredStep(table, m, events[0]);
      NothingDeferredNoEffect(table, Step(table, m, events[0]), events[1..]);
    }
  }

  /** Unwinding the stack down to a call that deferred, and settling its promise. */
  lemma {:induction false} UnwindToDeferral(table: Table, m: Machine) returns (events: seq<Event>)
    requires !m.destroyed && m.deferred.None? && StillDeferring(m)
    ensures NoScheduling(events) && Effects(table, m, events) > 0
    decreases |m.frames|
  {
    var top := Last(m.frames);
    if top.InListeners? && top.next.Defer? {
      var e := Resolve(|m.waiting|);
      var n := Step(table, m, ListenersReturn);
      assert TakesEffect(table, n, e);
      events := [ListenersReturn, e];
      assert events[1..] == [e] && [e][0] == e;
      assert Effects(table, n, [e]) >= 1;
    } else {
      var e := if top.InHook? then HookReturns(Throws) else ListenersReturn;
      var n := Step(table, m, e);
      var f :| f in m.frames && f.InListeners? && f.next.Defer?;
      assert m.frames == Pop(m.frames) + [top];
      assert n.frames == Pop(m.frames) && f in n.frames;
      var rest := UnwindToDeferral(table, n);
      events := [e] + rest;
      assert events[1..] == rest;
    }
  }

  /** Main result: when no action is pending, a deferred state can take effect without being
      scheduled anew exactly when a call that deferred it is still telling its listeners. */
  lemma ReturnsExactly(table: Table, m: Machine)
    requires !m.destroyed && m.deferred.None?
    ensures MayTakeEffect(table, m) <==> StillDeferring(m)
  {
    if StillDeferring(m) {
      var events := UnwindToDeferral(table, m);
    } else {
      forall events | NoScheduling(events) ensures Effects(table, m, events) == 0 {
        NothingDeferredNoEffect(table, m, events);
      }
    }
  }

  /** An example of two states: `go` leads from A to B and `back` returns. */
  function Pair(): Table {
    map["A" := map["go" := "B"], "B" := map["back" := "A"]]
  }

  /** A call that nothing else interrupts. */
  function Plainly(t: string, r: HookResult): seq<Event> {
    [Call(t), HookReturns(r), ListenersReturn]
  }

  lemma {:induction false} RunInTwo(table: Table, m: Machine, a: seq<Event>, b: seq<Event>)
    ensures Run(table, m, a + b) == Run(table, Run(table, m, a), b)
    ensures Effects(table, m, a + b) == Effects(table, m, a) + Effects(table, Run(table, m, a), b)
    decreases |a|
  {
    hide Step, TakesEffect;
    if a == [] {
      assert a + b == b;
    } else {
      assert (a + b)[1..] == a[1..] + b;
      RunInTwo(table, Step(table, m, a[0]), a[1..], b);
    }
  }

  /** Three events, one at a time. */
  lemma ThreeSteps(table: Table, m: Machine, a: Event, b: Event, c: Event)
    ensures var m1 := Step(table, m, a);
            var m2 := Step(table, m1, b);
            && Run(table, m, [a, b, c]) == Step(table, m2, c)
            && Effects(table, m, [a, b, c])
               == (if TakesEffect(table, m, a) then 1 else 0) + (if TakesEffect(table, m1, b) then 1 else 0)
                  + (if TakesEffect(table, m2, c) then 1 else 0)
  {
    hide Step, TakesEffect;
    var m1 := Step(table, m, a);
    var m2 := Step(table, m1, b);
    assert [a, b, c] == [a] + ([b] + [c]);
    RunInTwo(table, m, [a], [b] + [c]);
    RunInTwo(table, m1, [b], [c]);
    assert Run(table, m2, [c]) == Run(table, Step(table, m2, c), []);
    assert Run(table, m1, [b]) == Run(table, m2, []);
    assert Run(table, m, [a]) == Run(table, m1, []);
  }

  lemma PopOf<T>(s: seq<T>, x: T)
    ensures Pop(s + [x]) == s && Last(s + [x]) == x
  {
  }

  /** The innermost hook returns. */
  lemma AfterHookOf(m: Machine, below: seq<Frame>, f: Frame, r: HookResult)
    requires m.frames == below + [f] && f.InHook? && !m.destroyed && !r.Throws?
    ensures AfterHook(m, r) ==
            m.(frames := below + [InListeners(f.call, f.transition, f.from,
                                              if r.ToDeferred? then Defer(r.target)
                                              else if r.ToState? && r.state != "" then Enter(r.state) else Enter(f.target))],
               asked := if r.ToDeferred? then m.asked + {(f.call, r.target)}
                        else if r.ToState? then m.asked + {(f.call, r.state)} else m.asked)
  {
    PopOf(below, f);
    hide Pop, Last;
  }

  /** The listeners of the innermost call, which is to enter a state, return. */
  lemma AfterListenersOf(m: Machine, below: seq<Frame>, f: Frame)
    requires m.frames == below + [f] && f.InListeners? && f.next.Enter?
    ensures AfterListeners(m) ==
            var popped := m.(frames := below);
            if EqualsFalse(f.next.state) || m.state != f.from then popped
            else popped.(state := f.next.state,
                         history := m.history + [Edge(f.call, f.from, f.transition, f.next.state)])
  {
    hide EqualsFalse;
    PopOf(below, f);
    hide Pop, Last;
  }

  /** An undisturbed call that gets through commits its target, or the state its hook asks for,
      releasing the deferred state if there was one; but a state whose name compares equal to `false`
      is never entered. */
  lemma UndisturbedCallCommits(table: Table, m: Machine, t: string, r: HookResult)
    requires Accepts(table, m, t) && !m.destroyed && (r.Nothing? || r.ToState?)
    ensures var to := if r.ToState? && r.state != "" then r.state else Lookup(table, m.state, t).value;
            var done := m.(deferred := None, calls := m.calls + 1,
                           asked := if r.ToState? then m.asked + {(m.calls, r.state)} else m.asked);
            Run(table, m, Plainly(t, r))
            == if EqualsFalse(to) then done
               else done.(state := to, history := m.history + [Edge(m.calls, m.state, t, to)])
    ensures Effects(table, m, Plainly(t, r)) == if m.deferred.Some? then 1 else 0
  {
    hide EqualsFalse, AfterHook, AfterListeners, Run, Effects, Pop, Last;
    var to := if r.ToState? && r.state != "" then r.state else Lookup(table, m.state, t).value;
    var m1 := Step(table, m, Call(t));
    var m2 := Step(table, m1, HookReturns(r));
    AfterHookOf(m1, m.frames, InHook(m.calls, t, m.state, Lookup(table, m.state, t).value), r);
    AfterListenersOf(m2, m.frames, InListeners(m.calls, t, m.state, Enter(to)));
    ThreeSteps(table, m, Call(t), HookReturns(r), ListenersReturn);
  }

  lemma PairLeads()
    ensures Lookup(Pair(), "A", "go") == Some("B") && Lookup(Pair(), "B", "back") == Some("A")
  {
  }

  /** In A, `go`'s hook schedules B and returns it; its listeners are about to be told. */
  function Deferring(): Machine {
    Machine("A", Some(DeferredState("B")), false, [InListeners(0, "go", "A", Defer("B"))], [ClearOnReject], 1, [],
            {(0, "B")})
  }

  /** A call whose hook schedules a state and returns it, up to its listeners. */
  lemma DeferringCall(table: Table, m: Machine, t: string, to: string)
    requires Accepts(table, m, t) && m.deferred.None? && !m.destroyed
    ensures var events := [Call(t), DeferState(to), HookReturns(ToDeferred(to))];
            && Run(table, m, events)
               == m.(deferred := Some(DeferredState(to)), waiting := m.waiting + [ClearOnReject], calls := m.calls + 1,
                     frames := m.frames + [InListeners(m.calls, t, m.state, Defer(to))],
                     asked := m.asked + {(m.calls, to)})
            && Effects(table, m, events) == 0
  {
    hide AfterHook, AfterListeners, Run, Effects, Pop, Last;
    var m2 := Step(table, Step(table, m, Call(t)), DeferState(to));
    AfterHookOf(m2, m.frames, InHook(m.calls, t, m.state, Lookup(table, m.state, t).value), ToDeferred(to));
    ThreeSteps(table, m, Call(t), DeferState(to), HookReturns(ToDeferred(to)));
  }

  lemma DeferringReached()
    ensures var events := [Call("go"), DeferState("B"), HookReturns(ToDeferred("B"))];
            Run(Pair(), Start("A"), events) == Deferring() && Effects(Pair(), Start("A"), events) == 0
  {
    hide Pair, Lookup, Run, Effects;
    PairLeads();
    DeferringCall(Pair(), Start("A"), "go", "B");
  }

  /** The outer call's listeners return, and its promise is fulfilled. */
  lemma DeferredAgain(table: Table, m: Machine)
    requires m.frames == [InListeners(0, "go", "A", Defer("B"))] && m.waiting == [ClearOnReject]
    requires m.state == "A" && !m.destroyed
    ensures var events := [ListenersReturn, Resolve(1), ListenersReturn];
            && Run(table, m, events).history == m.history + [Edge(0, "A", "go", "B")]
            && Effects(table, m, events) == 1
  {
    NamesAreNotFalse("B");
    hide EqualsFalse, Run, Effects;
    var m1 := Step(table, m, ListenersReturn);
    assert m1.waiting == [ClearOnReject, FinishLater(0, "go", "A", "B")] && m1.frames == [];
    var m2 := Step(table, m1, Resolve(1));
    assert m2.frames == [InListeners(0, "go", "A", Enter("B"))];
    AfterListenersOf(m2, [], InListeners(0, "go", "A", Enter("B")));
    hide AfterListeners, OnResolve;
    ThreeSteps(table, m, ListenersReturn, Resolve(1), ListenersReturn);
  }

  /** While the outer call's listeners are told, `go` releases B and `back` returns. */
  lemma ThereAndBack(m: Machine)
    requires m == Deferring()
    ensures var n := Run(Pair(), m, Plainly("go", Nothing) + Plainly("back", Nothing));
            && n == m.(deferred := None, calls := 3, history := [Edge(1, "A", "go", "B"), Edge(2, "B", "back", "A")])
            && Effects(Pair(), m, Plainly("go", Nothing) + Plainly("back", Nothing)) == 1
  {
    hide Pair, Lookup, Effects, Run, Plainly;
    NamesAreNotFalse("A");
    NamesAreNotFalse("B");
    hide EqualsFalse;
    PairLeads();
    UndisturbedCallCommits(Pair(), m, "go", Nothing);
    var n := Run(Pair(), m, Plainly("go", Nothing));
    assert n == m.(deferred := None, calls := 2, state := "B", history := [Edge(1, "A", "go", "B")]);
    RunInTwo(Pair(), m, Plainly("go", Nothing), Plainly("back", Nothing));
    UndisturbedCallCommits(Pair(), n, "back", Nothing);
  }

  /** One scheduled state, one promise, two entries: while the listeners of the deferring call are
      told, `go` releases B and `back` returns; the outer call then makes the released action
      pending again, and its promise enters B a second time. */
  lemma ReleasedStateMayReturn()
    ensures var events := [Call("go"), DeferState("B"), HookReturns(ToDeferred("B"))]
                          + (Plainly("go", Nothing)
                             + (Plainly("back", Nothing) + [ListenersReturn, Resolve(1), ListenersReturn]));
            && Effects(Pair(), Start("A"), events) == 2
            && Run(Pair(), Start("A"), events).history
               == [Edge(1, "A", "go", "B"), Edge(2, "B", "back", "A"), Edge(0, "A", "go", "B")]
  {
    hide Pair, Lookup, Effects, Run, Plainly, Step, TakesEffect, Accepts, EqualsFalse;
    var t := Pair();
    var end := [ListenersReturn, Resolve(1), ListenersReturn];
    var begin := [Call("go"), DeferState("B"), HookReturns(ToDeferred("B"))];
    var middle := Plainly("go", Nothing) + Plainly("back", Nothing);
    DeferringReached();
    ThereAndBack(Deferring());
    DeferredAgain(t, Run(t, Deferring(), middle));
    RunInTwo(t, Start("A"), begin, middle + end);
    RunInTwo(t, Deferring(), middle, end);
    assert middle + end == Plainly("go", Nothing) + (Plainly("back", Nothing) + end);
  }
}
