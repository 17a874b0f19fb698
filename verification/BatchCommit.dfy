/**
 * Queueing several changes and committing them once is the same as committing after each:
 * the same manifest in the same order, and the same tokens burned.
 */
module BatchCommit {
  import opened Wrappers
  import opened OrderedMap
  import opened CharterModel
  import opened CharterProtocol
  import opened CharterInvariant
  import opened CharterSafety

  // ----- a commit as seen key by key -----

  /** The entry is the policy that the pending change asks for. */
  predicate Installs(p: PendingChange, e: ManifestEntry) {
    && p.DelegateChange? && p.dgtLink.Some? && !p.action.Remove?
    && e.tokenName == p.dgtLink.value.uutName && e.mph.None? && e.entryType.DgDataPolicy?
    && e.entryType.policyLink == p.dgtLink.value && e.entryType.idPrefix == p.action.idPrefix && e.entryType.refCount == 1
  }

  /** After a commit each pending name has the policy that its change asks for, and every other key its
      old value. */
  lemma CommitByKey(c: Charter, k: string)
    requires GoodCharter(c)
    ensures Commit(c).Ok?
    ensures var m := Commit(c).value.charter.manifest;
            if NoneFor(c.pendingChanges, k) then Get(m, k) == Get(c.manifest, k)
            else HasPolicy(m, k) &&
                 exists p :: p in c.pendingChanges && IsPendingFor(p, k) && Installs(p, Get(m, k).value)
  {
    var news := NewEntries(c.pendingChanges, c.manifest);
    CommitSucceeds(c);
    GetOfConcat(news, Without(c.manifest, news), k);
    GetOfWithout(c.manifest, news, k);
    NewEntriesKeys(c.pendingChanges, c.manifest, k);
    if !NoneFor(c.pendingChanges, k) {
      var p := NewEntryOf(c.pendingChanges, c.manifest, k);
    }
  }

  lemma {:induction false} NewEntryOf(pending: seq<PendingChange>, m: Entries<ManifestEntry>, k: string)
    returns (p: PendingChange)
    requires AllCommittable(pending, m) && !NoneFor(pending, k)
    ensures p in pending && IsPendingFor(p, k)
    ensures Has(NewEntries(pending, m), k) && Installs(p, Get(NewEntries(pending, m), k).value)
  {
    assert NewEntries(pending, m)[1..] == NewEntries(pending[1..], m);
    if IsPendingFor(pending[0], k) {
      p := pending[0];
    } else {
      p := NewEntryOf(pending[1..], m, k);
    }
  }

  /** The keys of a map, in insertion order. */
  function Keys<V>(m: Entries<V>): seq<string> {
    if m == [] then [] else [m[0].0] + Keys(m[1..])
  }

  function PendingNames(pending: seq<PendingChange>): seq<string> {
    if pending == [] then []
    else (if pending[0].DelegateChange? && pending[0].role.DgDataRole? then [pending[0].role.typeName] else []) +
         PendingNames(pending[1..])
  }

  function Dropping(keys: seq<string>, gone: seq<string>): seq<string> {
    if keys == [] then []
    else (if keys[0] in gone then [] else [keys[0]]) + Dropping(keys[1..], gone)
  }

  lemma {:induction false} KeysOfNewEntries(pending: seq<PendingChange>, m: Entries<ManifestEntry>)
    requires AllCommittable(pending, m)
    ensures Keys(NewEntries(pending, m)) == PendingNames(pending)
  {
    if pending != [] {
      KeysOfNewEntries(pending[1..], m);
      assert NewEntries(pending, m)[1..] == NewEntries(pending[1..], m);
    }
  }

  lemma {:induction false} HasIsInKeys<V>(m: Entries<V>, k: string)
    ensures Has(m, k) <==> k in Keys(m)
  {
    if m != [] {
      HasIsInKeys(m[1..], k);
    }
  }

  lemma {:induction false} KeysOfWithout<V, W>(m: Entries<V>, other: Entries<W>)
    ensures Keys(Without(m, other)) == Dropping(Keys(m), Keys(other))
  {
    if m != [] {
      KeysOfWithout(m[1..], other);
      HasIsInKeys(other, m[0].0);
      assert Keys(m)[1..] == Keys(m[1..]);
      if !Has(other, m[0].0) {
        assert Without(m, other)[1..] == Without(m[1..], other);
      }
    }
  }

  lemma {:induction false} KeysOfConcat<V>(a: Entries<V>, b: Entries<V>)
    ensures Keys(a + b) == Keys(a) + Keys(b)
  {
    if a == [] {
      assert a + b == b;
    } else {
      assert (a + b)[1..] == a[1..] + b;
      KeysOfConcat(a[1..], b);
    }
  }

  /** New entries come first, in pending order; the rest keep their relative order. */
  lemma CommitKeyOrder(c: Charter)
    requires GoodCharter(c)
    ensures Commit(c).Ok?
    ensures Keys(Commit(c).value.charter.manifest) ==
            PendingNames(c.pendingChanges) + Dropping(Keys(c.manifest), PendingNames(c.pendingChanges))
  {
    var news := NewEntries(c.pendingChanges, c.manifest);
    CommitSucceeds(c);
    KeysOfConcat(news, Without(c.manifest, news));
    KeysOfNewEntries(c.pendingChanges, c.manifest);
    KeysOfWithout(c.manifest, news);
  }

  // ----- one change: commit before or after queueing it -----

  /** Queueing looks at nothing but the named entry and the changes pending for it. */
  lemma QueueLooksAtName(h: SeedHash, c: Charter, d: Charter, kind: ChangeKind, o: QueueOptions, seed: TxOutputId)
    requires QueueChange(h, c, kind, o, seed).Ok?
    requires Get(c.manifest, o.typeName) == Get(d.manifest, o.typeName)
    requires FindPolicy(c.manifest, o.typeName) == FindPolicy(d.manifest, o.typeName)
    requires !FindPending(d.pendingChanges, kind, o.typeName)
    ensures QueueChange(h, d, kind, o, seed) ==
            Ok(Effect(d.(pendingChanges := [MkPending(h, kind, FindPolicy(c.manifest, o.typeName), o, seed)]
                                           + d.pendingChanges),
                      multiset{UutNameOf(h, Purpose(o), seed)}, multiset{}, multiset{}))
  {
  }

  /** Committing first does not change whether, or as what, a further change is queued. */
  lemma QueueAfterCommit(h: SeedHash, c: Charter, kind: ChangeKind, o: QueueOptions, seed: TxOutputId)
    requires GoodCharter(c) && QueueChange(h, c, kind, o, seed).Ok?
    ensures Commit(c).Ok?
    ensures var d := Commit(c).value.charter;
            var q := QueueChange(h, d, kind, o, seed);
            && q.Ok?
            && q.value.charter == d.(pendingChanges := [MkPending(h, kind, FindPolicy(c.manifest, o.typeName), o, seed)])
            && q.value.minted == QueueChange(h, c, kind, o, seed).value.minted
  {
    hide QueueChange, Commit, MkPending, CommittedManifest, Tokens;
    QueuedChange(h, c, kind, o, seed);
    CommitSucceeds(c);
    CommittedManifestDistinct(c);
    CommitByKey(c, o.typeName);
    var d := Commit(c).value.charter;
    FindPolicyIsLookup(c.manifest, o.typeName);
    FindPolicyIsLookup(d.manifest, o.typeName);
    QueueLooksAtName(h, c, d, kind, o, seed);
    var p := MkPending(h, kind, FindPolicy(c.manifest, o.typeName), o, seed);
    assert [p] + [] == [p];
  }

  /** The entry that one pending change makes. */
  function EntryOf(p: PendingChange): Entries<ManifestEntry>
    requires p.DelegateChange? && p.role.DgDataRole? && p.dgtLink.Some? && (p.action.Add? || p.action.Replace?)
  {
    [(p.role.typeName, PolicyEntry(p.dgtLink.value, p.action.idPrefix))]
  }

  lemma NewEntriesOfOneMore(p: PendingChange, pending: seq<PendingChange>, m: Entries<ManifestEntry>)
    requires Committable(p, m) && AllCommittable(pending, m)
    ensures AllCommittable([p] + pending, m) && NewEntries([p] + pending, m) == EntryOf(p) + NewEntries(pending, m)
  {
    assert ([p] + pending)[1..] == pending;
  }

  /** Committing the rest and then one more leaves what committing all of them leaves. */
  lemma OneMoreManifest(c: Charter, p: PendingChange)
    requires GoodCharter(c) && Committable(p, c.manifest) && NoneFor(c.pendingChanges, p.role.typeName)
    ensures var news := NewEntries(c.pendingChanges, c.manifest);
            Without(CommittedManifest(c), EntryOf(p)) == news + Without(c.manifest, EntryOf(p) + news)
  {
    var m, news, one := c.manifest, NewEntries(c.pendingChanges, c.manifest), EntryOf(p);
    WithoutOfConcat(news, Without(m, news), one);
    WithoutTwice(m, news, one);
    forall k | Has(news, k) ensures !Has(one, k) {
      NewEntriesKeys(c.pendingChanges, m, k);
      assert one[1..] == [] && Get(one[1..], k) == None;
      assert k != p.role.typeName;
    }
    WithoutAbsent(news, one);
  }

  /** The manifest and the burned tokens agree whichever way round. */
  lemma OneMorePending(c: Charter, p: PendingChange, c1: Charter, d: Charter)
    requires GoodCharter(c) && Committable(p, c.manifest) && NoneFor(c.pendingChanges, p.role.typeName)
    requires c1 == c.(pendingChanges := [p] + c.pendingChanges) && GoodCharter(c1)
    requires d == c.(manifest := CommittedManifest(c), pendingChanges := [p]) && GoodCharter(d)
    ensures CommittedManifest(c1) == CommittedManifest(d)
    ensures Commit(c).Ok? && Commit(c1).Ok? && Commit(d).Ok?
    ensures Commit(c1).value.burned == Commit(c).value.burned + Commit(d).value.burned
  {
    hide Without, PolicyTokens, Commit, NoneFor;
    var m, news, one := c.manifest, NewEntries(c.pendingChanges, c.manifest), EntryOf(p);
    NewEntriesOfOneMore(p, c.pendingChanges, m);
    NewEntriesOfOneMore(p, [], d.manifest);
    assert [p] + [] == [p] && one + [] == one;
    OneMoreManifest(c, p);
    assert one + (news + Without(m, one + news)) == (one + news) + Without(m, one + news);
    CommitSucceeds(c);
    CommitSucceeds(c1);
    CommitSucceeds(d);
    PolicyTokensOfConcat(news, Without(m, news));
    PolicyTokensOfConcat(news, Without(m, one + news));
    SameBurns(PolicyTokens(m), PolicyTokens(news), PolicyTokens(Without(m, news)), PolicyTokens(Without(m, one + news)),
              Commit(c).value.burned, Commit(c1).value.burned, Commit(d).value.burned);
  }

  lemma SameBurns(all: multiset<string>, n: multiset<string>, w: multiset<string>, w1: multiset<string>,
                  b: multiset<string>, b1: multiset<string>, bd: multiset<string>)
    requires b + w == all && b1 + w1 == all && bd + (n + w1) == n + w
    ensures b1 == b + bd
  {
    forall k ensures b1[k] == (b + bd)[k] {
      assert (b + w)[k] == all[k] && (b1 + w1)[k] == all[k] && (bd + (n + w1))[k] == (n + w)[k];
    }
  }

  predicate IsQueue(op: Op) {
    op.Queue? && op.options.typeName != "" && op.options.idPrefix != ""
  }

  lemma QueueStep(h: SeedHash, st: State, op: Op)
    requires Inv(h, st) && IsQueue(op) && Step(h, st, op).Ok?
    ensures var e := QueueChange(h, st.charter, op.kind, op.options, op.seed);
            && e.Ok? && op.seed !in st.spent
            && GoodCharter(e.value.charter)
            && e.value.burned == e.value.stranded == multiset{}
            && Step(h, st, op).value ==
               State(e.value.charter, st.minted + e.value.minted, st.burned, st.stranded, st.spent + {op.seed})
  {
    hide GoodCharter, Tokens, QueueChange;
    StepIsApply(h, st, op);
    QueuedChange(h, st.charter, op.kind, op.options, op.seed);
    QueueKeepsExactly(h, st.charter, op.kind, op.options, op.seed);
  }

  lemma CommitStep(h: SeedHash, st: State)
    requires GoodCharter(st.charter)
    ensures Commit(st.charter).Ok? && Step(h, st, CommitPending).Ok?
    ensures Step(h, st, CommitPending).value ==
            State(st.charter.(manifest := CommittedManifest(st.charter), pendingChanges := []),
                  st.minted, st.burned + Commit(st.charter).value.burned, st.stranded, st.spent)
    ensures GoodCharter(Step(h, st, CommitPending).value.charter)
  {
    hide GoodCharter, Tokens, Commit;
    CommitSucceeds(st.charter);
    CommitKeeps(st.charter);
    StepIsApply(h, st, CommitPending);
  }

  /** Queue then commit, or commit then queue then commit: the same state. */
  lemma CommitDiamond(h: SeedHash, st: State, op: Op)
    requires Inv(h, st) && IsQueue(op) && Step(h, st, op).Ok?
    ensures Step(h, st, CommitPending).Ok?
    ensures var early := Step(h, st, CommitPending).value;
            && Step(h, early, op).Ok?
            && Step(h, Step(h, early, op).value, CommitPending).Ok?
            && Step(h, Step(h, st, op).value, CommitPending) == Step(h, Step(h, early, op).value, CommitPending)
  {
    hide GoodCharter, Tokens, Commit, QueueChange, Committable, MkPending, CommittedManifest, UniqueNames, Step;
    var c, o := st.charter, op.options;
    var p := MkPending(h, op.kind, FindPolicy(c.manifest, o.typeName), o, op.seed);
    QueueStep(h, st, op);
    CommitStep(h, st);
    QueuedChange(h, c, op.kind, o, op.seed);
    QueueAfterCommit(h, c, op.kind, o, op.seed);
    CommitSucceeds(c);
    var early, late := Step(h, st, CommitPending).value, Step(h, st, op).value;
    QueueStepAfter(h, early, op);
    QueueKeepsExactly(h, early.charter, op.kind, o, op.seed);
    var d := Step(h, early, op).value;
    CommitStep(h, late);
    CommitStep(h, d);
    PendingFields(h, op.kind, FindPolicy(c.manifest, o.typeName), o, op.seed);
    OneMorePending(c, p, late.charter, d.charter);
    assert st.burned + Commit(late.charter).value.burned ==
           (st.burned + Commit(c).value.burned) + Commit(d.charter).value.burned;
    var x, y := Step(h, late, CommitPending).value, Step(h, d, CommitPending).value;
    assert x.burned == y.burned && x.minted == y.minted && x.stranded == y.stranded && x.spent == y.spent;
    assert x.charter == y.charter;
  }

  lemma PendingFields(h: SeedHash, kind: ChangeKind, existing: Option<ManifestEntry>, o: QueueOptions, seed: TxOutputId)
    ensures MkPending(h, kind, existing, o, seed).DelegateChange?
    ensures MkPending(h, kind, existing, o, seed).role == DgDataRole(o.typeName)
  {
  }

  lemma QueueStepAfter(h: SeedHash, st: State, op: Op)
    requires op.Queue? && op.seed !in st.spent
    requires QueueChange(h, st.charter, op.kind, op.options, op.seed).Ok?
    ensures Step(h, st, op) ==
            Ok(Apply(st, QueueChange(h, st.charter, op.kind, op.options, op.seed).value, Some(op.seed)))
    ensures QueueChange(h, st.charter, op.kind, op.options, op.seed).value.burned == multiset{}
    ensures QueueChange(h, st.charter, op.kind, op.options, op.seed).value.stranded == multiset{}
  {
  }

  // ----- many changes -----

  /** A commit after each op. */
  function Interleaved(ops: seq<Op>): seq<Op> {
    if ops == [] then [] else [ops[0], CommitPending] + Interleaved(ops[1..])
  }

  predicate AllQueues(ops: seq<Op>) {
    ops != [] ==> IsQueue(ops[0]) && AllQueues(ops[1..])
  }

  lemma RunAllFirst(h: SeedHash, st: State, op: Op, rest: seq<Op>)
    requires Step(h, st, op).Ok?
    ensures RunAll(h, st, [op] + rest) == RunAll(h, Step(h, st, op).value, rest)
  {
    hide Step;
    assert ([op] + rest)[1..] == rest;
  }

  lemma {:induction false} BatchIsInterleaved(h: SeedHash, st: State, ops: seq<Op>)
    requires Inv(h, st) && AllQueues(ops) && RunAll(h, st, ops).Ok?
    requires GoodHash(h, st.spent + SeedsOf(ops))
    ensures RunAll(h, st, ops + [CommitPending]) == RunAll(h, st, [CommitPending] + Interleaved(ops))
    ensures RunAll(h, st, ops + [CommitPending]).Ok?
    decreases |ops|
  {
    hide GoodCharter, Conserved, UniqueNames, QueueChange, Commit, EffectOf, Apply, Step, GoodHash;
    var C := CommitPending;
    if ops == [] {
      CommitStep(h, st);
      assert ops + [C] == [C] && [C] + Interleaved(ops) == [C];
      assert [C][1..] == [];
    } else {
      var op, rest := ops[0], ops[1..];
      assert Step(h, st, op).Ok?;
      var next := Step(h, st, op).value;
      QueueStep(h, st, op);
      SeedsOfFirst(h, st, next, ops);
      StepKeepsInv(h, st, op);
      BatchIsInterleaved(h, next, rest);
      CommitDiamond(h, st, op);
      assert ops == [op] + rest;
      BatchUnfolds(h, st, op, rest);
    }
  }

  /** Both sides of the batch equation, with their first operations taken. */
  lemma BatchUnfolds(h: SeedHash, st: State, op: Op, rest: seq<Op>)
    requires Step(h, st, op).Ok? && Step(h, st, CommitPending).Ok?
    requires Step(h, Step(h, st, CommitPending).value, op).Ok?
    requires var late := Step(h, st, op).value;
             var queued := Step(h, Step(h, st, CommitPending).value, op).value;
             && Step(h, late, CommitPending).Ok? && Step(h, queued, CommitPending) == Step(h, late, CommitPending)
             && RunAll(h, late, rest + [CommitPending]) == RunAll(h, late, [CommitPending] + Interleaved(rest))
    ensures RunAll(h, st, [op] + rest + [CommitPending]) == RunAll(h, st, [CommitPending] + Interleaved([op] + rest))
    ensures RunAll(h, st, [op] + rest + [CommitPending]) == RunAll(h, Step(h, st, op).value, rest + [CommitPending])
  {
    hide Step, RunAll, Interleaved;
    var C := CommitPending;
    var late := Step(h, st, op).value;
    var queued := Step(h, Step(h, st, C).value, op).value;
    assert [op] + rest + [C] == [op] + (rest + [C]);
    RunAllFirst(h, st, op, rest + [C]);
    RunAllFirst(h, late, C, Interleaved(rest));
    RunAllFirst(h, queued, C, Interleaved(rest));
    InterleavedFirst(op, rest);
    UnfoldThree(h, st, op, Interleaved(rest));
  }

  lemma InterleavedFirst(op: Op, rest: seq<Op>)
    ensures [CommitPending] + Interleaved([op] + rest) == [CommitPending, op, CommitPending] + Interleaved(rest)
  {
    assert ([op] + rest)[1..] == rest;
  }

  lemma SeedsOfFirst(h: SeedHash, st: State, next: State, ops: seq<Op>)
    requires ops != [] && IsQueue(ops[0]) && GoodHash(h, st.spent + SeedsOf(ops))
    requires next.spent == st.spent + {ops[0].seed}
    ensures GoodHash(h, st.spent + {ops[0].seed}) && GoodHash(h, next.spent + SeedsOf(ops[1..]))
  {
    GoodHashOnFewer(h, st.spent + {ops[0].seed}, st.spent + SeedsOf(ops));
    GoodHashOnFewer(h, next.spent + SeedsOf(ops[1..]), st.spent + SeedsOf(ops));
  }

  lemma UnfoldThree(h: SeedHash, st: State, op: Op, rest: seq<Op>)
    requires Step(h, st, CommitPending).Ok?
    requires Step(h, Step(h, st, CommitPending).value, op).Ok?
    ensures RunAll(h, st, [CommitPending, op, CommitPending] + rest) ==
            RunAll(h, Step(h, Step(h, st, CommitPending).value, op).value, [CommitPending] + rest)
  {
    hide Step;
    var ops := [CommitPending, op, CommitPending] + rest;
    assert ops[1..] == [op, CommitPending] + rest;
    assert ops[1..][1..] == [CommitPending] + rest;
  }

  lemma NothingBurned(b: multiset<string>, w: multiset<string>)
    requires b + w == w
    ensures b == multiset{}
  {
    forall k ensures b[k] == 0 {
      assert (b + w)[k] == w[k];
    }
  }

  lemma CommitOfNothing(h: SeedHash, st: State)
    requires GoodCharter(st.charter) && st.charter.pendingChanges == []
    ensures Step(h, st, CommitPending) == Ok(st)
  {
    CommitStep(h, st);
    CommitSucceeds(st.charter);
    var news := NewEntries(st.charter.pendingChanges, st.charter.manifest);
    assert news == [];
    WithoutAbsent(st.charter.manifest, news);
    assert news + st.charter.manifest == st.charter.manifest;
    assert Without(st.charter.manifest, news) == st.charter.manifest;
    NothingBurned(Commit(st.charter).value.burned, PolicyTokens(st.charter.manifest));
    var next := Step(h, st, CommitPending).value;
    assert next.charter == st.charter;
    assert next.burned == st.burned;
  }

  /** The batch theorem: from a charter with nothing pending, n queued changes (whose names are
      distinct, or queueing would have refused one) and a single commit reach the same state as
      a commit after each change. */
  lemma {:induction false} BatchEqualsOneByOne(h: SeedHash, st: State, ops: seq<Op>)
    requires Inv(h, st) && st.charter.pendingChanges == []
    requires AllQueues(ops) && RunAll(h, st, ops).Ok?
    requires GoodHash(h, st.spent + SeedsOf(ops))
    ensures RunAll(h, st, ops + [CommitPending]).Ok?
    ensures RunAll(h, st, ops + [CommitPending]) == RunAll(h, st, Interleaved(ops))
  {
    hide GoodCharter, Conserved, UniqueNames, Step;
    BatchIsInterleaved(h, st, ops);
    CommitOfNothing(h, st);
    assert ([CommitPending] + Interleaved(ops))[1..] == Interleaved(ops);
  }
}
