/**
 * What the scheduler guarantees on every tree of transactions and every state: pre-order,
 * registration of all siblings before the first is built, nothing built twice or left out,
 * and each builder running against the state left by the transactions before it. The nested
 * loops do the same as a plain agenda on which nested transactions go to the front.
 */
module SchedulerOrder {
  import opened Wrappers
  import opened Scheduler

  // ----- pre-order -----

  /** Strict pre-order on tree positions: an ancestor first, then by the first index that differs. */
  predicate Before(p: Path, q: Path) {
    q != [] && (p == [] || p[0] < q[0] || (p[0] == q[0] && Before(p[1..], q[1..])))
  }

  predicate SortedPaths(ps: seq<Path>) {
    forall i, j :: 0 <= i < j < |ps| ==> Before(ps[i], ps[j])
  }

  /** The nodes whose builders ran without throwing, in the order they ran. */
  function DecidedPaths<N, S>(log: seq<Event<N, S>>): seq<Path> {
    if log == [] then []
    else (if log[0].Decided() then [log[0].path] else []) + DecidedPaths(log[1..])
  }

  lemma {:induction false} DecidedOfConcat<N, S>(a: seq<Event<N, S>>, b: seq<Event<N, S>>)
    ensures DecidedPaths(a + b) == DecidedPaths(a) + DecidedPaths(b)
  {
    if a == [] {
      assert a + b == b;
    } else {
      assert (a + b)[0] == a[0] && (a + b)[1..] == a[1..] + b;
      DecidedOfConcat(a[1..], b);
      var first := if a[0].Decided() then [a[0].path] else [];
      assert first + (DecidedPaths(a[1..]) + DecidedPaths(b)) == (first + DecidedPaths(a[1..])) + DecidedPaths(b);
    }
  }

  lemma {:induction false} DecidedOfRegistrations<N, S>(parent: Path, count: nat)
    ensures DecidedPaths<N, S>(Registrations(parent, count)) == []
  {
    if count > 0 {
      DecidedOfRegistrations<N, S>(parent, count - 1);
      DecidedOfConcat<N, S>(Registrations(parent, count - 1), [Registered(Child(parent, count - 1))]);
    }
  }

  lemma {:induction false} DecidedIsInLog<N, S>(log: seq<Event<N, S>>, q: Path)
    ensures q in DecidedPaths(log) <==> exists e :: e in log && e.Decided() && e.path == q
  {
    if log != [] {
      DecidedIsInLog(log[1..], q);
      assert log == [log[0]] + log[1..];
    }
  }

  /** The position lies strictly below `parent`, in the subtree of child `lo` or a later one. */
  predicate Below(parent: Path, lo: nat, q: Path) {
    |q| > |parent| && q[..|parent|] == parent && q[|parent|] >= lo
  }

  ghost predicate AllBelow<N(!new), S(!new)>(log: seq<Event<N, S>>, parent: Path, lo: nat) {
    forall e :: e in log ==> Below(parent, lo, e.path)
  }

  lemma {:induction false} BeforeUnderPrefix(prefix: Path, p: Path, q: Path)
    ensures Before(prefix + p, prefix + q) <==> Before(p, q)
  {
    if prefix == [] {
      assert prefix + p == p && prefix + q == q;
    } else {
      assert (prefix + p)[1..] == prefix[1..] + p && (prefix + q)[1..] == prefix[1..] + q;
      BeforeUnderPrefix(prefix[1..], p, q);
    }
  }

  /** An earlier sibling's subtree comes before a later one's. */
  lemma EarlierSubtree(parent: Path, i: nat, p: Path, q: Path)
    requires Below(parent, i, p) && p[|parent|] == i && Below(parent, i + 1, q)
    ensures Before(p, q)
  {
    assert p == parent + p[|parent|..] && q == parent + q[|parent|..];
    BeforeUnderPrefix(parent, p[|parent|..], q[|parent|..]);
  }

  lemma AncestorFirst(path: Path, q: Path)
    requires Below(path, 0, q)
    ensures Before(path, q)
  {
    assert q == path + q[|path|..] && path == path + [];
    BeforeUnderPrefix(path, [], q[|path|..]);
  }

  /** Everything a node's run logs is about the node itself or lies below it. */
  lemma {:induction false} NodeStaysInSubtree<N(!new), S(!new), E>(p: Planner<N, S, E>, n: N, path: Path, s: S)
    requires Bounded(p)
    ensures forall e :: e in RunNode(p, n, path, s).log ==> (e.path == path && !e.Registered?) || Below(path, 0, e.path)
    decreases p.rank(n), 1, 0
  {
    var outcome := p.build(n, s);
    if outcome.Facade? || outcome.Txn? {
      assert RanksBelow(p, p.build(n, s).Kids(), p.rank(n));
      ListStaysInSubtree(p, outcome.children, path, if outcome.Txn? then outcome.next else s, p.rank(n));
    }
  }

  lemma {:induction false} ListStaysInSubtree<N(!new), S(!new), E>(
      p: Planner<N, S, E>, nodes: seq<N>, parent: Path, s: S, bound: nat)
    requires Bounded(p) && RanksBelow(p, nodes, bound)
    ensures AllBelow(RunList(p, nodes, parent, s, bound).log, parent, 0)
    decreases bound, 0, |nodes| + 1
  {
    FromStaysInSubtree(p, nodes, 0, parent, s, bound);
  }

  lemma {:induction false} FromStaysInSubtree<N(!new), S(!new), E>(
      p: Planner<N, S, E>, nodes: seq<N>, i: nat, parent: Path, s: S, bound: nat)
    requires Bounded(p) && RanksBelow(p, nodes, bound) && i <= |nodes|
    ensures AllBelow(RunFrom(p, nodes, i, parent, s, bound).log, parent, i)
    ensures forall e :: e in RunFrom(p, nodes, i, parent, s, bound).log && e.Registered? ==> |e.path| > |parent| + 1
    decreases bound, 0, |nodes| - i
  {
    if i < |nodes| {
      var first := RunNode(p, nodes[i], Child(parent, i), s);
      NodeStaysInSubtree(p, nodes[i], Child(parent, i), s);
      forall e | e in first.log ensures Below(parent, i, e.path) {
        if e.path != Child(parent, i) {
          assert e.path[..|parent|] == e.path[..|parent| + 1][..|parent|];
        }
      }
      if first.error.None? {
        FromStaysInSubtree(p, nodes, i + 1, parent, first.state, bound);
      }
    }
  }

  lemma SortedConcat(a: seq<Path>, b: seq<Path>)
    requires SortedPaths(a) && SortedPaths(b)
    requires forall x, y :: x in a && y in b ==> Before(x, y)
    ensures SortedPaths(a + b)
  {
    var ab := a + b;
    forall i, j | 0 <= i < j < |ab| ensures Before(ab[i], ab[j]) {
      if i < |a| <= j {
        assert ab[i] in a && ab[j] in b;
      }
    }
  }

  /** Everything in the subtree of child `i` comes before everything in the later ones. */
  lemma SubtreesInOrder<N(!new), S(!new)>(a: seq<Event<N, S>>, b: seq<Event<N, S>>, parent: Path, i: nat)
    requires forall e :: e in a ==> (e.path == Child(parent, i) && !e.Registered?) || Below(Child(parent, i), 0, e.path)
    requires AllBelow(b, parent, i + 1)
    ensures forall x, y :: x in DecidedPaths(a) && y in DecidedPaths(b) ==> Before(x, y)
  {
    forall x, y | x in DecidedPaths(a) && y in DecidedPaths(b) ensures Before(x, y) {
      DecidedIsInLog(a, x);
      DecidedIsInLog(b, y);
      assert x[..|parent| + 1] == Child(parent, i);
      assert x[..|parent|] == x[..|parent| + 1][..|parent|];
      EarlierSubtree(parent, i, x, y);
    }
  }

  /** A node in front of everything below it. */
  lemma InFrontOfSubtree<N(!new), S(!new)>(log: seq<Event<N, S>>, below: seq<Event<N, S>>, path: Path)
    requires |log| >= 2 && log[2..] == below && !log[0].Decided() && log[1].Decided() && log[1].path == path
    requires AllBelow(below, path, 0) && SortedPaths(DecidedPaths(below))
    ensures SortedPaths(DecidedPaths(log))
  {
    assert log[1..][1..] == below;
    assert DecidedPaths(log) == [path] + DecidedPaths(below);
    forall y | y in DecidedPaths(below) ensures Before(path, y) {
      DecidedIsInLog(below, y);
      AncestorFirst(path, y);
    }
    SortedConcat([path], DecidedPaths(below));
  }

  lemma {:induction false} NodePreOrder<N(!new), S(!new), E>(p: Planner<N, S, E>, n: N, path: Path, s: S)
    requires Bounded(p)
    ensures SortedPaths(DecidedPaths(RunNode(p, n, path, s).log))
    decreases p.rank(n), 1, 0
  {
    var outcome, r := p.build(n, s), RunNode(p, n, path, s);
    if outcome.Facade? || outcome.Txn? {
      hide RunList, DecidedPaths, SortedPaths, AllBelow;
      assert RanksBelow(p, p.build(n, s).Kids(), p.rank(n));
      var next := if outcome.Txn? then outcome.next else s;
      var below := RunList(p, outcome.children, path, next, p.rank(n)).log;
      ListPreOrder(p, outcome.children, path, next, p.rank(n));
      ListStaysInSubtree(p, outcome.children, path, next, p.rank(n));
      assert r.log[2..] == below;
      InFrontOfSubtree(r.log, below, path);
    } else {
      AtMostOneDecided(r.log);
    }
  }

  lemma AtMostOneDecided<N(!new), S(!new)>(log: seq<Event<N, S>>)
    requires 1 <= |log| <= 2 && !log[0].Decided()
    ensures SortedPaths(DecidedPaths(log))
  {
    assert |log| == 2 ==> log[1..][1..] == [];
    assert |DecidedPaths(log[1..])| <= 1;
  }

  /** Pre-order: a node, then its whole subtree, then its next sibling; and nothing twice,
      since the order is strict. */
  lemma {:induction false} ListPreOrder<N(!new), S(!new), E>(
      p: Planner<N, S, E>, nodes: seq<N>, parent: Path, s: S, bound: nat)
    requires Bounded(p) && RanksBelow(p, nodes, bound)
    ensures SortedPaths(DecidedPaths(RunList(p, nodes, parent, s, bound).log))
    decreases bound, 0, |nodes| + 1
  {
    FromPreOrder(p, nodes, 0, parent, s, bound);
    DecidedOfConcat(Registrations(parent, |nodes|), RunFrom(p, nodes, 0, parent, s, bound).log);
    DecidedOfRegistrations<N, S>(parent, |nodes|);
  }

  lemma {:induction false} FromPreOrder<N(!new), S(!new), E>(
      p: Planner<N, S, E>, nodes: seq<N>, i: nat, parent: Path, s: S, bound: nat)
    requires Bounded(p) && RanksBelow(p, nodes, bound) && i <= |nodes|
    ensures SortedPaths(DecidedPaths(RunFrom(p, nodes, i, parent, s, bound).log))
    decreases bound, 0, |nodes| - i
  {
    if i < |nodes| {
      var first := RunNode(p, nodes[i], Child(parent, i), s);
      NodePreOrder(p, nodes[i], Child(parent, i), s);
      if first.error.None? {
        var rest := RunFrom(p, nodes, i + 1, parent, first.state, bound);
        FromPreOrder(p, nodes, i + 1, parent, first.state, bound);
        DecidedOfConcat(first.log, rest.log);
        NodeStaysInSubtree(p, nodes[i], Child(parent, i), s);
        FromStaysInSubtree(p, nodes, i + 1, parent, first.state, bound);
        SubtreesInOrder(first.log, rest.log, parent, i);
        SortedConcat(DecidedPaths(first.log), DecidedPaths(rest.log));
      }
    }
  }

  // ----- registration -----

  predicate Siblings(p: Path, q: Path) {
    |p| == |q| > 0 && p[..|p| - 1] == q[..|q| - 1]
  }

  lemma SiblingsAgree(p: Path, q: Path, k: nat)
    requires k < |p| && k + 1 < |q|
    ensures Siblings(p, q) ==> p[k] == q[k]
  {
    if Siblings(p, q) {
      assert p[k] == p[..|p| - 1][k] && q[k] == q[..|q| - 1][k];
    }
  }

  /** No sibling is registered once one of them has started building. */
  ghost predicate SiblingsFirst<N(!new), S(!new)>(log: seq<Event<N, S>>) {
    forall j, r | 0 <= j < |log| && 0 <= r < |log| && log[j].Building? && log[r].Registered? ::
      Siblings(log[j].path, log[r].path) ==> r < j
  }

  lemma SiblingsFirstConcat<N(!new), S(!new)>(a: seq<Event<N, S>>, b: seq<Event<N, S>>)
    requires SiblingsFirst(a) && SiblingsFirst(b)
    requires forall x, y :: x in a && y in b && x.Building? && y.Registered? ==> !Siblings(x.path, y.path)
    ensures SiblingsFirst(a + b)
  {
    var ab := a + b;
    forall j, r | 0 <= j < |ab| && 0 <= r < |ab| && ab[j].Building? && ab[r].Registered? &&
                  Siblings(ab[j].path, ab[r].path)
      ensures r < j
    {
      assert j < |a| ==> ab[j] in a;
      assert r >= |a| ==> ab[r] in b;
    }
  }

  lemma {:induction false} NodeRegistersFirst<N(!new), S(!new), E>(p: Planner<N, S, E>, n: N, path: Path, s: S)
    requires Bounded(p)
    ensures SiblingsFirst(RunNode(p, n, path, s).log)
    decreases p.rank(n), 1, 0
  {
    var outcome, r := p.build(n, s), RunNode(p, n, path, s);
    if outcome.Facade? || outcome.Txn? {
      assert RanksBelow(p, p.build(n, s).Kids(), p.rank(n));
      var next := if outcome.Txn? then outcome.next else s;
      var below := RunList(p, outcome.children, path, next, p.rank(n)).log;
      AllRegisteredFirst(p, outcome.children, path, next, p.rank(n));
      ListStaysInSubtree(p, outcome.children, path, next, p.rank(n));
      SiblingsFirstConcat(r.log[..2], below);
      assert r.log == r.log[..2] + below;
    }
  }

  /** All of a list's nodes are registered before the first of them is built, at every level. */
  lemma {:induction false} AllRegisteredFirst<N(!new), S(!new), E>(
      p: Planner<N, S, E>, nodes: seq<N>, parent: Path, s: S, bound: nat)
    requires Bounded(p) && RanksBelow(p, nodes, bound)
    ensures SiblingsFirst(RunList(p, nodes, parent, s, bound).log)
    ensures forall i :: 0 <= i < |nodes| ==> RunList(p, nodes, parent, s, bound).log[i] == Registered(Child(parent, i))
    decreases bound, 0, |nodes| + 1
  {
    FromRegistersFirst(p, nodes, 0, parent, s, bound);
    SiblingsFirstConcat(Registrations(parent, |nodes|), RunFrom(p, nodes, 0, parent, s, bound).log);
  }

  lemma {:induction false} FromRegistersFirst<N(!new), S(!new), E>(
      p: Planner<N, S, E>, nodes: seq<N>, i: nat, parent: Path, s: S, bound: nat)
    requires Bounded(p) && RanksBelow(p, nodes, bound) && i <= |nodes|
    ensures SiblingsFirst(RunFrom(p, nodes, i, parent, s, bound).log)
    decreases bound, 0, |nodes| - i
  {
    if i < |nodes| {
      var first := RunNode(p, nodes[i], Child(parent, i), s);
      NodeRegistersFirst(p, nodes[i], Child(parent, i), s);
      if first.error.None? {
        var rest := RunFrom(p, nodes, i + 1, parent, first.state, bound);
        FromRegistersFirst(p, nodes, i + 1, parent, first.state, bound);
        NodeStaysInSubtree(p, nodes[i], Child(parent, i), s);
        FromStaysInSubtree(p, nodes, i + 1, parent, first.state, bound);
        forall x, y | x in first.log && y in rest.log && x.Building? && y.Registered?
          ensures !Siblings(x.path, y.path)
        {
          assert x.path[|parent|] == i && y.path[|parent|] > i;
          SiblingsAgree(x.path, y.path, |parent|);
        }
        SiblingsFirstConcat(first.log, rest.log);
      }
    }
  }

  // ----- nothing is left out -----

  /** Every nested transaction of a decided node is decided too. */
  ghost predicate NoneLeftOut<N(!new), S(!new)>(log: seq<Event<N, S>>, decided: seq<Path>) {
    forall e, c :: e in log && (e.Built? || e.Opened?) && 0 <= c < e.kids ==> Child(e.path, c) in decided
  }

  lemma {:induction false} NodeComplete<N(!new), S(!new), E>(p: Planner<N, S, E>, n: N, path: Path, s: S)
    requires Bounded(p) && RunNode(p, n, path, s).error.None?
    ensures var log := RunNode(p, n, path, s).log; path in DecidedPaths(log) && NoneLeftOut(log, DecidedPaths(log))
    decreases p.rank(n), 1, 0
  {
    var outcome, r := p.build(n, s), RunNode(p, n, path, s);
    if outcome.Facade? || outcome.Txn? {
      assert RanksBelow(p, p.build(n, s).Kids(), p.rank(n));
      var next := if outcome.Txn? then outcome.next else s;
      var below := RunList(p, outcome.children, path, next, p.rank(n)).log;
      ListComplete(p, outcome.children, path, next, p.rank(n));
      assert r.log[1..][1..] == below;
      assert DecidedPaths(r.log) == [path] + DecidedPaths(below);
    } else {
      assert r.log[1..][1..] == [];
    }
  }

  /** A run that nothing stopped has decided every node of the list and everything nested in them. */
  lemma {:induction false} ListComplete<N(!new), S(!new), E>(
      p: Planner<N, S, E>, nodes: seq<N>, parent: Path, s: S, bound: nat)
    requires Bounded(p) && RanksBelow(p, nodes, bound) && RunList(p, nodes, parent, s, bound).error.None?
    ensures var log := RunList(p, nodes, parent, s, bound).log;
            && (forall i :: 0 <= i < |nodes| ==> Child(parent, i) in DecidedPaths(log))
            && NoneLeftOut(log, DecidedPaths(log))
    decreases bound, 0, |nodes| + 1
  {
    FromComplete(p, nodes, 0, parent, s, bound);
    DecidedOfConcat(Registrations(parent, |nodes|), RunFrom(p, nodes, 0, parent, s, bound).log);
    DecidedOfRegistrations<N, S>(parent, |nodes|);
  }

  lemma {:induction false} FromComplete<N(!new), S(!new), E>(
      p: Planner<N, S, E>, nodes: seq<N>, i: nat, parent: Path, s: S, bound: nat)
    requires Bounded(p) && RanksBelow(p, nodes, bound) && i <= |nodes|
    requires RunFrom(p, nodes, i, parent, s, bound).error.None?
    ensures var log := RunFrom(p, nodes, i, parent, s, bound).log;
            && (forall j :: i <= j < |nodes| ==> Child(parent, j) in DecidedPaths(log))
            && NoneLeftOut(log, DecidedPaths(log))
    decreases bound, 0, |nodes| - i
  {
    if i < |nodes| {
      var first := RunNode(p, nodes[i], Child(parent, i), s);
      NodeComplete(p, nodes[i], Child(parent, i), s);
      FromComplete(p, nodes, i + 1, parent, first.state, bound);
      DecidedOfConcat(first.log, RunFrom(p, nodes, i + 1, parent, first.state, bound).log);
    }
  }

  // ----- just in time -----

  /** Walking the log from `s`, every builder's outcome is the one its event records, and the
      walk ends in `t`: only built transactions change the state. */
  predicate JustInTime<N, S(==), E>(p: Planner<N, S, E>, log: seq<Event<N, S>>, s: S, t: S)
    decreases |log|
  {
    if log == [] then s == t
    else
      match log[0]
      case Built(_, n, next, kids) =>
        var o := p.build(n, s);
        o.Txn? && o.next == next && |o.children| == kids && JustInTime(p, log[1..], next, t)
      case Opened(_, n, kids) =>
        var o := p.build(n, s);
        o.Facade? && |o.children| == kids && JustInTime(p, log[1..], s, t)
      case Skipped(_, n) => p.build(n, s).NotNeeded? && JustInTime(p, log[1..], s, t)
      case _ => JustInTime(p, log[1..], s, t)
  }

  lemma {:induction false} JustInTimeConcat<N, S, E>(
      p: Planner<N, S, E>, a: seq<Event<N, S>>, b: seq<Event<N, S>>, s: S, t: S, u: S)
    requires JustInTime(p, a, s, t) && JustInTime(p, b, t, u)
    ensures JustInTime(p, a + b, s, u)
    decreases |a|
  {
    if a == [] {
      assert a + b == b;
    } else {
      assert (a + b)[1..] == a[1..] + b;
      JustInTimeConcat(p, a[1..], b, if a[0].Built? then a[0].next else s, t, u);
    }
  }

  lemma {:induction false} RegistrationsChangeNothing<N, S, E>(p: Planner<N, S, E>, parent: Path, count: nat, s: S)
    ensures JustInTime(p, Registrations(parent, count), s, s)
  {
    if count > 0 {
      RegistrationsChangeNothing(p, parent, count - 1, s);
      var last := [Registered(Child(parent, count - 1))];
      assert last[1..] == [];
      JustInTimeConcat(p, Registrations(parent, count - 1), last, s, s, s);
    }
  }

  lemma {:induction false} NodeJustInTime<N(!new), S(!new), E>(p: Planner<N, S, E>, n: N, path: Path, s: S)
    requires Bounded(p)
    ensures JustInTime(p, RunNode(p, n, path, s).log, s, RunNode(p, n, path, s).state)
    decreases p.rank(n), 1, 0
  {
    var outcome, r := p.build(n, s), RunNode(p, n, path, s);
    if outcome.Facade? || outcome.Txn? {
      assert RanksBelow(p, p.build(n, s).Kids(), p.rank(n));
      var next := if outcome.Txn? then outcome.next else s;
      ListJustInTime(p, outcome.children, path, next, p.rank(n));
      assert r.log[1..][1..] == RunList(p, outcome.children, path, next, p.rank(n)).log;
    } else if outcome.NotNeeded? {
      assert r.log[1..][1..] == [];
    } else {
      assert r.log[1..] == [];
    }
  }

  /** Each builder sees the state left by the transactions built before it, and a not-needed
      node or a facade contributes no state change of its own. */
  lemma {:induction false} ListJustInTime<N(!new), S(!new), E>(
      p: Planner<N, S, E>, nodes: seq<N>, parent: Path, s: S, bound: nat)
    requires Bounded(p) && RanksBelow(p, nodes, bound)
    ensures var r := RunList(p, nodes, parent, s, bound); JustInTime(p, r.log, s, r.state)
    decreases bound, 0, |nodes| + 1
  {
    FromJustInTime(p, nodes, 0, parent, s, bound);
    RegistrationsChangeNothing(p, parent, |nodes|, s);
    var r := RunFrom(p, nodes, 0, parent, s, bound);
    JustInTimeConcat(p, Registrations(parent, |nodes|), r.log, s, s, r.state);
  }

  lemma {:induction false} FromJustInTime<N(!new), S(!new), E>(
      p: Planner<N, S, E>, nodes: seq<N>, i: nat, parent: Path, s: S, bound: nat)
    requires Bounded(p) && RanksBelow(p, nodes, bound) && i <= |nodes|
    ensures var r := RunFrom(p, nodes, i, parent, s, bound); JustInTime(p, r.log, s, r.state)
    decreases bound, 0, |nodes| - i
  {
    if i < |nodes| {
      var first := RunNode(p, nodes[i], Child(parent, i), s);
      NodeJustInTime(p, nodes[i], Child(parent, i), s);
      if first.error.None? {
        FromJustInTime(p, nodes, i + 1, parent, first.state, bound);
        var rest := RunFrom(p, nodes, i + 1, parent, first.state, bound);
        JustInTimeConcat(p, first.log, rest.log, s, first.state, rest.state);
      }
    }
  }

  // ----- the agenda -----

  /** What a run amounts to: the nodes whose transactions were built, and how it ended. */
  datatype Summary<+N, +S, +E> = Summary(built: seq<N>, state: S, error: Option<E>)

  /** The plain agenda: take the first node, build it, put what is nested in it at the front. */
  function Agenda<N, S, E>(p: Planner<N, S, E>, todo: seq<N>, s: S, steps: nat): Summary<N, S, E>
    decreases steps
  {
    if todo == [] || steps == 0 then Summary([], s, None)
    else
      match p.build(todo[0], s)
      case NotNeeded => Agenda(p, todo[1..], s, steps - 1)
      case Throws(e) => Summary([], s, Some(e))
      case Unused(e) => Summary([], s, Some(e))
      case Facade(kids) => Agenda(p, kids + todo[1..], s, steps - 1)
      case Txn(next, kids) =>
        var r := Agenda(p, kids + todo[1..], next, steps - 1);
        Summary([todo[0]] + r.built, r.state, r.error)
  }

  function BuiltNodes<N, S>(log: seq<Event<N, S>>): seq<N> {
    if log == [] then []
    else (if log[0].Built? then [log[0].node] else []) + BuiltNodes(log[1..])
  }

  lemma {:induction false} BuiltOfConcat<N, S>(a: seq<Event<N, S>>, b: seq<Event<N, S>>)
    ensures BuiltNodes(a + b) == BuiltNodes(a) + BuiltNodes(b)
  {
    if a == [] {
      assert a + b == b;
    } else {
      assert (a + b)[0] == a[0] && (a + b)[1..] == a[1..] + b;
      BuiltOfConcat(a[1..], b);
      var first := if a[0].Built? then [a[0].node] else [];
      assert first + (BuiltNodes(a[1..]) + BuiltNodes(b)) == (first + BuiltNodes(a[1..])) + BuiltNodes(b);
    }
  }

  lemma NothingBuilt<N, S>()
    ensures BuiltNodes<N, S>([]) == []
  {
  }

  lemma {:induction false} BuiltOfRegistrations<N, S>(parent: Path, count: nat)
    ensures BuiltNodes<N, S>(Registrations(parent, count)) == []
  {
    if count > 0 {
      BuiltOfRegistrations<N, S>(parent, count - 1);
      BuiltOfConcat<N, S>(Registrations(parent, count - 1), [Registered(Child(parent, count - 1))]);
    }
  }

  /** A nested run followed by what the agenda does with the rest. */
  function Then<N, S, E>(p: Planner<N, S, E>, r: Run<N, S, E>, rest: seq<N>, steps: nat): Summary<N, S, E> {
    if r.error.Some? then Summary(BuiltNodes(r.log), r.state, r.error)
    else
      var a := Agenda(p, rest, r.state, steps);
      Summary(BuiltNodes(r.log) + a.built, a.state, a.error)
  }

  lemma LeafIsAgenda<N(!new), S(!new), E>(p: Planner<N, S, E>, n: N, path: Path, s: S, rest: seq<N>, more: nat)
    requires Bounded(p) && (p.build(n, s).NotNeeded? || p.build(n, s).Throws? || p.build(n, s).Unused?)
    ensures Agenda(p, [n] + rest, s, more + 1) == Then(p, RunNode(p, n, path, s), rest, more)
  {
    var r := RunNode(p, n, path, s);
    assert ([n] + rest)[1..] == rest;
    assert r.log[1..] == [] || r.log[1..][1..] == [];
    assert BuiltNodes(r.log[1..]) == [];
    assert [] + Agenda(p, rest, s, more).built == Agenda(p, rest, s, more).built;
  }

  lemma BuiltOfTwoMore<N, S>(log: seq<Event<N, S>>, below: seq<Event<N, S>>)
    requires |log| >= 2 && log[2..] == below && !log[0].Built?
    ensures BuiltNodes(log) == (if log[1].Built? then [log[1].node] else []) + BuiltNodes(below)
  {
    assert log[1..][1..] == below;
  }

  /** Putting one built node in front of what a run and the agenda then do. */
  lemma BuiltInFront<N>(mine: seq<N>, built: seq<N>, later: seq<N>)
    ensures mine + (built + later) == (mine + built) + later
  {
  }

  /** A node that has a transaction or nested nodes, when the agenda does the nested nodes right. */
  lemma InnerIsAgenda<N(!new), S(!new), E>(p: Planner<N, S, E>, n: N, path: Path, s: S, rest: seq<N>, more: nat, steps: nat)
    requires Bounded(p) && (p.build(n, s).Facade? || p.build(n, s).Txn?)
    requires RanksBelow(p, p.build(n, s).children, p.rank(n))
    requires var o := p.build(n, s);
             var next := if o.Txn? then o.next else s;
             Agenda(p, o.children + rest, next, steps) == Then(p, RunList(p, o.children, path, next, p.rank(n)), rest, more)
    ensures Agenda(p, [n] + rest, s, steps + 1) == Then(p, RunNode(p, n, path, s), rest, more)
  {
    hide RunList;
    var o, r := p.build(n, s), RunNode(p, n, path, s);
    var below := RunList(p, o.children, path, if o.Txn? then o.next else s, p.rank(n));
    assert ([n] + rest)[1..] == rest;
    assert r.log[2..] == below.log;
    BuiltOfTwoMore(r.log, below.log);
    hide BuiltNodes, RunNode;
    var mine, built := if o.Txn? then [n] else [], BuiltNodes(below.log);
    assert [] + built == built;
    if below.error.None? {
      BuiltInFront(mine, built, Agenda(p, rest, below.state, more).built);
    }
  }

  lemma {:induction false} NodeIsAgenda<N(!new), S(!new), E>(
      p: Planner<N, S, E>, n: N, path: Path, s: S, rest: seq<N>, more: nat) returns (steps: nat)
    requires Bounded(p)
    ensures steps >= more && Agenda(p, [n] + rest, s, steps) == Then(p, RunNode(p, n, path, s), rest, more)
    decreases p.rank(n), 1, 0
  {
    hide Agenda, Then, RunList;
    var outcome := p.build(n, s);
    if outcome.Facade? || outcome.Txn? {
      assert RanksBelow(p, p.build(n, s).Kids(), p.rank(n));
      var next := if outcome.Txn? then outcome.next else s;
      steps := ListIsAgenda(p, outcome.children, path, next, p.rank(n), rest, more);
      InnerIsAgenda(p, n, path, s, rest, more, steps);
      steps := steps + 1;
    } else {
      steps := more + 1;
      LeafIsAgenda(p, n, path, s, rest, more);
    }
  }

  /** The nested loops and the plain agenda build the same transactions in the same order, from
      the same states, and stop at the same error. */
  lemma {:induction false} ListIsAgenda<N(!new), S(!new), E>(
      p: Planner<N, S, E>, nodes: seq<N>, parent: Path, s: S, bound: nat, rest: seq<N>, more: nat) returns (steps: nat)
    requires Bounded(p) && RanksBelow(p, nodes, bound)
    ensures steps >= more && Agenda(p, nodes + rest, s, steps) == Then(p, RunList(p, nodes, parent, s, bound), rest, more)
    decreases bound, 0, |nodes| + 1
  {
    steps := FromIsAgenda(p, nodes, 0, parent, s, bound, rest, more);
    assert nodes[0..] == nodes;
    var r := RunFrom(p, nodes, 0, parent, s, bound);
    BuiltOfConcat(Registrations(parent, |nodes|), r.log);
    BuiltOfRegistrations<N, S>(parent, |nodes|);
    assert [] + BuiltNodes(r.log) == BuiltNodes(r.log);
  }

  lemma {:induction false} FromIsAgenda<N(!new), S(!new), E>(
      p: Planner<N, S, E>, nodes: seq<N>, i: nat, parent: Path, s: S, bound: nat, rest: seq<N>, more: nat)
    returns (steps: nat)
    requires Bounded(p) && RanksBelow(p, nodes, bound) && i <= |nodes|
    ensures steps >= more
    ensures Agenda(p, nodes[i..] + rest, s, steps) == Then(p, RunFrom(p, nodes, i, parent, s, bound), rest, more)
    decreases bound, 0, |nodes| - i
  {
    hide BuiltNodes, Agenda, RunNode;
    if i == |nodes| {
      steps := more;
      NothingBuilt<N, S>();
      assert nodes[i..] + rest == rest;
      assert [] + Agenda(p, rest, s, more).built == Agenda(p, rest, s, more).built;
    } else {
      var first := RunNode(p, nodes[i], Child(parent, i), s);
      var later := nodes[i + 1..] + rest;
      assert nodes[i..] + rest == [nodes[i]] + later;
      if first.error.Some? {
        steps := NodeIsAgenda(p, nodes[i], Child(parent, i), s, later, more);
      } else {
        var mid := FromIsAgenda(p, nodes, i + 1, parent, first.state, bound, rest, more);
        steps := NodeIsAgenda(p, nodes[i], Child(parent, i), s, later, mid);
        var r := RunFrom(p, nodes, i + 1, parent, first.state, bound);
        BuiltOfConcat(first.log, r.log);
        if r.error.None? {
          var a := Agenda(p, rest, r.state, more);
          assert BuiltNodes(first.log) + (BuiltNodes(r.log) + a.built) ==
                 (BuiltNodes(first.log) + BuiltNodes(r.log)) + a.built;
        }
      }
    }
  }
}
