/**
 * The nested-transaction scheduler. Each node's builder runs just in time against the state
 * left by the transactions built before it; it may report that it is not needed, throw, be a
 * facade for nested transactions, produce a transaction that may itself carry nested ones, or
 * hand over a context that was never used, which is an error.
 */
module Scheduler {
  import opened Wrappers

  datatype Outcome<+N, +S, +E> =
    | NotNeeded
    | Throws(error: E)
    | Facade(children: seq<N>)
    | Txn(next: S, children: seq<N>)
    | Unused(error: E)
  {
    function Kids(): seq<N> {
      if Facade? || Txn? then children else []
    }
  }

  /** How nodes build; `rank` bounds the nesting below a node. */
  datatype Planner<!N, !S, E> = Planner(build: (N, S) -> Outcome<N, S, E>, rank: N -> nat)

  /** Nested transactions have a smaller rank, so every tree of transactions is finite. */
  ghost predicate Bounded<N(!new), S(!new), E>(p: Planner<N, S, E>) {
    forall n, s :: RanksBelow(p, p.build(n, s).Kids(), p.rank(n))
  }

  predicate RanksBelow<N, S, E>(p: Planner<N, S, E>, nodes: seq<N>, bound: nat) {
    forall i :: 0 <= i < |nodes| ==> p.rank(nodes[i]) < bound
  }

  /** A node's position in the tree: the child indices from the root. */
  type Path = seq<nat>

  function Child(parent: Path, i: nat): Path {
    parent + [i]
  }

  datatype Event<+N, +S> =
    | Registered(path: Path)
    | Building(path: Path)
    | Built(path: Path, node: N, next: S, kids: nat)
    | Opened(path: Path, node: N, kids: nat)
    | Skipped(path: Path, node: N)
  {
    /** The node's builder has run and did not throw. */
    predicate Decided() {
      Built? || Opened? || Skipped?
    }
  }

  datatype Run<+N, +S, +E> = Run(state: S, log: seq<Event<N, S>>, error: Option<E>)

  function Registrations<N, S>(parent: Path, count: nat): (log: seq<Event<N, S>>)
    ensures |log| == count
    ensures forall i :: 0 <= i < count ==> log[i] == Registered(Child(parent, i))
  {
    if count == 0 then [] else Registrations(parent, count - 1) + [Registered(Child(parent, count - 1))]
  }

  // ----- the scheduler as a function -----

  function RunNode<N(!new), S(!new), E>(p: Planner<N, S, E>, n: N, path: Path, s: S): Run<N, S, E>
    requires Bounded(p)
    decreases p.rank(n), 1, 0
  {
    match p.build(n, s)
    case NotNeeded => Run(s, [Building(path), Skipped(path, n)], None)
    case Throws(e) => Run(s, [Building(path)], Some(e))
    case Unused(e) => Run(s, [Building(path)], Some(e))
    case Facade(kids) =>
      assert RanksBelow(p, p.build(n, s).Kids(), p.rank(n));
      Prepend([Building(path), Opened(path, n, |kids|)], RunList(p, kids, path, s, p.rank(n)))
    case Txn(next, kids) =>
      assert RanksBelow(p, p.build(n, s).Kids(), p.rank(n));
      Prepend([Building(path), Built(path, n, next, |kids|)], RunList(p, kids, path, next, p.rank(n)))
  }

  /** All of a list's nodes are registered, then each is built with everything nested in it. */
  function RunList<N(!new), S(!new), E>(p: Planner<N, S, E>, nodes: seq<N>, parent: Path, s: S, bound: nat)
    : Run<N, S, E>
    requires Bounded(p) && RanksBelow(p, nodes, bound)
    decreases bound, 0, |nodes| + 1
  {
    Prepend(Registrations(parent, |nodes|), RunFrom(p, nodes, 0, parent, s, bound))
  }

  function RunFrom<N(!new), S(!new), E>(p: Planner<N, S, E>, nodes: seq<N>, i: nat, parent: Path, s: S, bound: nat)
    : Run<N, S, E>
    requires Bounded(p) && RanksBelow(p, nodes, bound) && i <= |nodes|
    decreases bound, 0, |nodes| - i
  {
    if i == |nodes| then Run(s, [], None)
    else
      var first := RunNode(p, nodes[i], Child(parent, i), s);
      if first.error.Some? then first
      else Prepend(first.log, RunFrom(p, nodes, i + 1, parent, first.state, bound))
  }

  function Prepend<N, S, E>(log: seq<Event<N, S>>, r: Run<N, S, E>): Run<N, S, E> {
    Run(r.state, log + r.log, r.error)
  }

  // ----- the scheduler as it is written -----

  /** The batch in progress: the state as of the last transaction built, and what happened. */
  class Batch<N(!new), S(!new), E> {
    var state: S
    var log: seq<Event<N, S>>

    constructor (s: S)
      ensures state == s && log == []
    {
      state, log := s, [];
    }

    /** `buildAndQueueAll`: builds this transaction unless it is a facade, then everything nested; a
        context that is neither has nothing to submit. */
    method BuildAndQueueAll(p: Planner<N, S, E>, node: N, path: Path, outcome: Outcome<N, S, E>, ghost bound: nat)
      returns (error: Option<E>)
      requires Bounded(p) && (outcome.Facade? || outcome.Txn? || outcome.Unused?)
      requires RanksBelow(p, outcome.Kids(), bound)
      modifies this
      ensures outcome.Unused? ==> error == Some(outcome.error) && state == old(state) && log == old(log)
      ensures !outcome.Unused? ==>
                var s := if outcome.Txn? then outcome.next else old(state);
                var entry := if outcome.Txn? then Built(path, node, outcome.next, |outcome.children|)
                             else Opened(path, node, |outcome.children|);
                var r := RunList(p, outcome.children, path, s, bound);
                error == r.error && state == r.state && log == old(log) + [entry] + r.log
      decreases bound, 1, 0
    {
      if outcome.Txn? {
        state := outcome.next;
        log := log + [Built(path, node, outcome.next, |outcome.children|)];
      } else if outcome.Facade? {
        log := log + [Opened(path, node, |outcome.children|)];
      } else {
        return Some(outcome.error);
      }
      error := ResolveMultipleTxns(p, outcome.children, path, bound);
    }

    /** One turn of the loop in `resolveMultipleTxns`: builds the node's transaction just in time. */
    method Resolve(p: Planner<N, S, E>, node: N, path: Path) returns (error: Option<E>)
      requires Bounded(p)
      modifies this
      ensures var r := RunNode(p, node, path, old(state));
              error == r.error && state == r.state && log == old(log) + r.log
      decreases p.rank(node), 2, 0
    {
      log := log + [Building(path)];
      var outcome := p.build(node, state);
      match outcome {
        case NotNeeded =>
          log := log + [Skipped(path, node)];
          error := None;
        case Throws(e) =>
          error := Some(e);
        case _ =>
          assert RanksBelow(p, p.build(node, state).Kids(), p.rank(node));
          error := BuildAndQueueAll(p, node, path, outcome, p.rank(node));
      }
    }

    /** `resolveMultipleTxns`: registers every description, then resolves them one by one. */
    method ResolveMultipleTxns(p: Planner<N, S, E>, txns: seq<N>, parent: Path, ghost bound: nat)
      returns (error: Option<E>)
      requires Bounded(p) && RanksBelow(p, txns, bound)
      modifies this
      ensures var r := RunList(p, txns, parent, old(state), bound);
              error == r.error && state == r.state && log == old(log) + r.log
      decreases bound, 0, |txns| + 2
    {
      Register(txns, parent);
      error := ResolveEach(p, txns, parent, bound);
    }

    /** The first loop of `resolveMultipleTxns`. */
    method Register(txns: seq<N>, parent: Path)
      modifies this
      ensures state == old(state) && log == old(log) + Registrations(parent, |txns|)
    {
      for i := 0 to |txns|
        invariant log == old(log) + Registrations(parent, i) && state == old(state)
      {
        log := log + [Registered(Child(parent, i))];
      }
    }

    /** The second loop of `resolveMultipleTxns`. */
    method ResolveEach(p: Planner<N, S, E>, txns: seq<N>, parent: Path, ghost bound: nat) returns (error: Option<E>)
      requires Bounded(p) && RanksBelow(p, txns, bound)
      modifies this
      ensures var r := RunFrom(p, txns, 0, parent, old(state), bound);
              error == r.error && state == r.state && log == old(log) + r.log
      decreases bound, 0, |txns| + 1
    {
      hide RunNode, RunFrom, Bounded, BuiltSoFar;
      ghost var s0 := state;
      ghost var log0 := log;
      ghost var built: seq<Event<N, S>> := [];
      Start(p, txns, parent, state, bound);
      for i := 0 to |txns|
        invariant log == log0 + built
        invariant BuiltSoFar(p, txns, i, parent, s0, built, state, bound)
      {
        RunFromStep(p, txns, i, parent, s0, state, built, bound);
        ghost var first := RunNode(p, txns[i], Child(parent, i), state);
        error := Resolve(p, txns[i], Child(parent, i));
        built := built + first.log;
        assert log == log0 + built;
        if error.Some? {
          return;
        }
      }
      RunFromEnd(p, txns, parent, s0, state, built, bound);
      error := None;
    }
  }

  /** The nodes before `i` have been built, with these events, leaving the state `s`. */
  ghost predicate BuiltSoFar<N(!new), S(!new), E>(p: Planner<N, S, E>, nodes: seq<N>, i: nat, parent: Path, s0: S,
                                                  built: seq<Event<N, S>>, s: S, bound: nat)
    requires Bounded(p) && RanksBelow(p, nodes, bound) && i <= |nodes|
  {
    RunFrom(p, nodes, 0, parent, s0, bound) == Prepend(built, RunFrom(p, nodes, i, parent, s, bound))
  }

  lemma Start<N(!new), S(!new), E>(p: Planner<N, S, E>, nodes: seq<N>, parent: Path, s: S, bound: nat)
    requires Bounded(p) && RanksBelow(p, nodes, bound)
    ensures BuiltSoFar(p, nodes, 0, parent, s, [], s, bound)
  {
    var whole := RunFrom(p, nodes, 0, parent, s, bound);
    assert [] + whole.log == whole.log;
  }

  /** Booking one more node's run to what is already built. */
  lemma RunFromStep<N(!new), S(!new), E>(p: Planner<N, S, E>, nodes: seq<N>, i: nat, parent: Path, s0: S, s: S,
                                         built: seq<Event<N, S>>, bound: nat)
    requires Bounded(p) && RanksBelow(p, nodes, bound) && i < |nodes|
    requires BuiltSoFar(p, nodes, i, parent, s0, built, s, bound)
    ensures var first := RunNode(p, nodes[i], Child(parent, i), s);
            if first.error.Some? then
              RunFrom(p, nodes, 0, parent, s0, bound) == Run(first.state, built + first.log, first.error)
            else BuiltSoFar(p, nodes, i + 1, parent, s0, built + first.log, first.state, bound)
  {
    var first := RunNode(p, nodes[i], Child(parent, i), s);
    if first.error.None? {
      var rest := RunFrom(p, nodes, i + 1, parent, first.state, bound);
      assert built + (first.log + rest.log) == (built + first.log) + rest.log;
    }
  }

  lemma RunFromEnd<N(!new), S(!new), E>(p: Planner<N, S, E>, nodes: seq<N>, parent: Path, s0: S, s: S,
                                        built: seq<Event<N, S>>, bound: nat)
    requires Bounded(p) && RanksBelow(p, nodes, bound)
    requires BuiltSoFar(p, nodes, |nodes|, parent, s0, built, s, bound)
    ensures RunFrom(p, nodes, 0, parent, s0, bound) == Run(s, built, None)
  {
    assert built + [] == built;
  }
}
