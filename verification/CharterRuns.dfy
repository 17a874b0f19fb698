/**
 * Runs of the charter builders on the chain: each builder fills a context of its own, its transaction
 * is submitted, and its outputs are where the next builder finds the tokens.
 */
module CharterRuns {
  import opened Wrappers
  import opened CharterModel
  import opened CharterProtocol
  import opened CharterInvariant
  import opened CharterTxns
  import CharterSafety
  import TxnContext

  // ----- the chain after a transaction -----

  /** Where the tokens are once the outputs are on chain, the first of them at `index`. */
  function Placed(at: map<string, TxOutputId>, outs: seq<TxnContext.Output>, txId: string, index: nat)
    : map<string, TxOutputId>
    decreases |outs|
  {
    if outs == [] then at
    else Placed(at + (map x | x in outs[0].tokens :: TxOutputId(txId, index)), outs[1..], txId, index + 1)
  }

  function Unspent(at: map<string, TxOutputId>, spent: set<TxOutputId>): map<string, TxOutputId> {
    map x | x in at && at[x] !in spent :: at[x]
  }

  predicate EndsWithCharter(outs: seq<TxnContext.Output>) {
    outs != [] && outs[|outs| - 1].datum.Some?
  }

  /** The chain once the transaction is on it: what it spent is gone, each output is found at its own
      position, and the charter is its last output. */
  function After(l: Chain, spent: set<TxOutputId>, outs: seq<TxnContext.Output>, txId: string): Chain
    requires EndsWithCharter(outs)
  {
    var last := |outs| - 1;
    Chain(Placed(Unspent(l.at, spent), outs[..last], txId, 0), TxOutputId(txId, last), outs[last].datum.value)
  }

  ghost predicate Injective(at: map<string, TxOutputId>) {
    forall x, y :: x in at && y in at && at[x] == at[y] ==> x == y
  }

  lemma {:induction false} PlacedAt(at: map<string, TxOutputId>, outs: seq<TxnContext.Output>, txId: string, index: nat,
                                    x: string)
    ensures var p := Placed(at, outs, txId, index);
            && (x in p <==> x in at || x in TxnContext.TokensOut(outs))
            && (x in TxnContext.TokensOut(outs) ==> p[x].txId == txId && index <= p[x].index < index + |outs|)
            && (x in at && x !in TxnContext.TokensOut(outs) ==> p[x] == at[x])
    decreases |outs|
  {
    if outs != [] {
      PlacedAt(at + (map y | y in outs[0].tokens :: TxOutputId(txId, index)), outs[1..], txId, index + 1, x);
    }
  }

  lemma OnlyOne(m: multiset<string>, x: string, y: string)
    requires |m| == 1 && x in m && y in m
    ensures x == y
  {
    assert |m - multiset{x}| == 0;
    assert x != y ==> y in m - multiset{x};
  }

  /** Outputs of one token each keep every token in a utxo of its own. */
  lemma {:induction false} PlacedApart(at: map<string, TxOutputId>, outs: seq<TxnContext.Output>, txId: string, index: nat)
    requires AllSingle(outs) && Injective(at)
    requires forall x <- at :: at[x].txId == txId ==> at[x].index < index
    ensures Injective(Placed(at, outs, txId, index))
    decreases |outs|
  {
    if outs != [] {
      var id := TxOutputId(txId, index);
      var next := at + map x | x in outs[0].tokens :: id;
      forall x, y | x in next && y in next && next[x] == next[y] ensures x == y {
        if x in outs[0].tokens && y in outs[0].tokens { OnlyOne(outs[0].tokens, x, y); }
      }
      PlacedApart(next, outs[1..], txId, index + 1);
    }
  }

  lemma {:induction false} AsManyTokens(outs: seq<TxnContext.Output>)
    requires AllSingle(outs)
    ensures |TxnContext.TokensOut(outs)| == |outs|
  {
    if outs != [] {
      AsManyTokens(outs[1..]);
    }
  }

  // ----- one builder's transaction -----

  /** All utxos that the chain knows of. */
  function Ids(l: Chain): set<TxOutputId> {
    l.at.Values + {l.charterId}
  }

  lemma NotHeldAt(l: Chain, taken: multiset<string>, x: string)
    requires Ready(l) && x in l.at && x !in taken
    ensures l.at[x] !in HeldAt(l, taken) && l.at[x] != l.charterId
  {
    hide Tokens;
    assert l.at[x] in l.at.Values;
  }

  lemma NotASeed(l: Chain, seeds: set<TxOutputId>, x: string)
    requires (forall s <- seeds :: ReadySeed(l, s)) && x in l.at
    ensures l.at[x] !in seeds
  {
    assert l.at[x] in l.at.Values;
  }

  /** A token that the transaction neither takes in nor puts out stays where it was. */
  lemma StaysUnspent(l: Chain, t: Tally, a: Added, x: string)
    requires Ready(l) && Adds(l, TallyOf(TxnContext.EMPTY), t, a) && (forall s <- a.seeds :: ReadySeed(l, s))
    requires x in l.at && x !in t.taken
    ensures l.at[x] !in t.spent
  {
    hide Ready, ReadySeed, HeldAt, TallyOf;
    NotHeldAt(l, t.taken, x);
    NotASeed(l, a.seeds, x);
    NothingSpent();
  }

  lemma AddedToNothing(l: Chain, t: Tally, a: Added)
    requires Adds(l, TallyOf(TxnContext.EMPTY), t, a)
    ensures t.taken + a.minted == t.put + a.burned && t.single && |t.put| <= a.outputs
  {
    forall k ensures (t.taken + a.minted)[k] == (t.put + a.burned)[k] {
      assert (t.taken + a.minted + TallyOf(TxnContext.EMPTY).put)[k] == (t.put + a.burned + TallyOf(TxnContext.EMPTY).taken)[k];
    }
  }

  /** A token of the next charter is put out, or was the charter's already and is not touched. */
  lemma PutOrKept(h: SeedHash, st: State, e: Effect, seed: Option<TxOutputId>, t: Tally, x: string)
    requires Inv(h, st) && Inv(h, Apply(st, e, seed))
    requires t.taken + e.minted == t.put + e.burned && x in Tokens(e.charter)
    ensures x in t.put || (x in Tokens(st.charter) && x !in t.taken)
    ensures Tokens(e.charter)[x] == 1 && exists p, s :: s in Apply(st, e, seed).spent && x == UutNameOf(h, p, s)
  {
    hide Tokens, GoodCharter;
    var next := Apply(st, e, seed);
    assert next.minted[x] == (next.burned + Tokens(e.charter) + next.stranded)[x];
    assert x in next.minted;
    assert st.minted[x] == (st.burned + Tokens(st.charter) + st.stranded)[x];
    assert (t.taken + e.minted)[x] == (t.put + e.burned)[x];
  }

  lemma OutputsSplit(outs: seq<TxnContext.Output>)
    requires outs != []
    ensures TxnContext.TokensOut(outs) == TxnContext.TokensOut(outs[..|outs| - 1]) + outs[|outs| - 1].tokens
    ensures AllSingle(outs) ==> AllSingle(outs[..|outs| - 1])
  {
    var most, last := outs[..|outs| - 1], outs[|outs| - 1];
    assert outs == most + [last];
    TxnContext.TokensOutSnoc(most, last);
    AllSingleSnoc(most, last);
  }

  /** Each token is in a utxo of its own, and every utxo is an old one or an output. */
  lemma AfterApart(l: Chain, spent: set<TxOutputId>, outs: seq<TxnContext.Output>, txId: string)
    requires Injective(l.at) && AllSingle(outs) && EndsWithCharter(outs)
    requires forall id <- Ids(l) :: id.txId != txId
    ensures var m := After(l, spent, outs, txId);
            && Injective(m.at) && m.charterId !in m.at.Values
            && (forall id <- Ids(m) :: id in Ids(l) || (id.txId == txId && id.index < |outs|))
  {
    OutputsSplit(outs);
    var most := outs[..|outs| - 1];
    var at := Unspent(l.at, spent);
    var m := After(l, spent, outs, txId);
    forall x <- at ensures at[x] in Ids(l) {
      assert l.at[x] in l.at.Values;
    }
    PlacedApart(at, most, txId, 0);
    forall x <- m.at ensures m.at[x] != m.charterId && (m.at[x] in Ids(l) || (m.at[x].txId == txId && m.at[x].index < |outs|)) {
      PlacedAt(at, most, txId, 0, x);
    }
  }

  /** A token that was put out, or is untouched, is found afterwards. */
  lemma FoundAfter(l: Chain, d: TxnContext.Ctx, txId: string, a: Added, x: string)
    requires Ready(l) && Adds(l, TallyOf(TxnContext.EMPTY), TallyOf(d), a) && (forall s <- a.seeds :: ReadySeed(l, s))
    requires EndsWithCharter(d.outputs) && d.outputs[|d.outputs| - 1].tokens == multiset{CHARTER} && x != CHARTER
    requires x in TallyOf(d).put || (x in l.at && x !in TallyOf(d).taken)
    ensures x in After(l, d.traces, d.outputs, txId).at
  {
    hide Ready, ReadySeed, Adds;
    OutputsSplit(d.outputs);
    PlacedAt(Unspent(l.at, d.traces), d.outputs[..|d.outputs| - 1], txId, 0, x);
    if x !in TallyOf(d).put { StaysUnspent(l, TallyOf(d), a, x); }
  }

  /** Main result: when a builder's transaction is on chain, the chain is ready for the next one: every
      token of the new charter is held once more in a utxo of its own. */
  lemma ReadyIsKept(h: SeedHash, st: State, l: Chain, d: TxnContext.Ctx, e: Effect, seed: Option<TxOutputId>,
                    seeds: set<TxOutputId>, refs: set<TxOutputId>, outputs: nat, txId: string)
    requires Inv(h, st) && Inv(h, Apply(st, e, seed)) && GoodHash(h, Apply(st, e, seed).spent)
    requires Ready(l) && l.charter == st.charter && (forall s <- seeds :: ReadySeed(l, s))
    requires CarriesOut(l, TxnContext.EMPTY, d, e, seeds, refs, multiset{}, outputs)
    requires forall id <- Ids(l) :: id.txId != txId
    ensures EndsWithCharter(d.outputs)
    ensures var m := After(l, d.traces, d.outputs, txId);
            && Ready(m) && m.charter == e.charter
            && (forall id <- Ids(m) :: id in Ids(l) || (id.txId == txId && id.index < outputs))
  {
    hide Tokens, Inv, Adds, Ready, ReadySeed, After, Injective, UutNameOf, GoodHash;
    ReadyMeans(l);
    var t := TallyOf(d);
    var a := Added(e.minted, e.burned, multiset{}, seeds, refs, outputs);
    AddedToNothing(l, t, a);
    AsManyTokens(d.outputs);
    AfterApart(l, d.traces, d.outputs, txId);
    forall x <- Tokens(e.charter)
      ensures x in After(l, d.traces, d.outputs, txId).at && Tokens(e.charter)[x] == 1
    {
      PutOrKept(h, st, e, seed, t, x);
      LongerThanCharter(h, Apply(st, e, seed).spent, x);
      FoundAfter(l, d, txId, a, x);
    }
    AfterCharter(l, d.traces, d.outputs, txId);
    ReadyMeans(After(l, d.traces, d.outputs, txId));
  }

  lemma ReadyMeans(l: Chain)
    ensures Ready(l) <==>
            && (forall x <- Tokens(l.charter) :: x in l.at && Tokens(l.charter)[x] == 1)
            && Injective(l.at) && l.charterId !in l.at.Values
  {
    hide Tokens;
  }

  lemma AfterCharter(l: Chain, spent: set<TxOutputId>, outs: seq<TxnContext.Output>, txId: string)
    requires EndsWithCharter(outs)
    ensures After(l, spent, outs, txId).charter == outs[|outs| - 1].datum.value
  {
  }

  /** The charter's own token is not an authority token. */
  lemma LongerThanCharter(h: SeedHash, spent: set<TxOutputId>, x: string)
    requires GoodHash(h, spent) && exists p, s :: s in spent && x == UutNameOf(h, p, s)
    ensures x != CHARTER
  {
    var p, s :| s in spent && x == UutNameOf(h, p, s);
    assert |x| == |p| + 13;
  }

  // ----- runs -----

  /** The builder of an op, in a context of its own. `utxo` is what a new manifest entry refers to. */
  method Build(h: SeedHash, l: Chain, op: Op, utxo: TxnContext.Utxo)
    returns (used: TxnContext.Context, r: Result<(), TxError>)
    ensures var e := EffectOf(h, l.charter, op);
            GoodCharter(l.charter) ==>
              && (r.Ok? ==> e.Ok? && CarriesOut(l, TxnContext.EMPTY, used.View(), e.value, OwnSeeds(op), OwnRefs(op, utxo),
                                              multiset{}, Outputs(op)))
              && (Ready(l) && (forall s <- OwnSeeds(op) :: ReadySeed(l, s)) ==> (r.Ok? <==> e.Ok?))
  {
    hide GoodCharter, Ready, CarriesOut, ReadySeed, Untouched, TxnContext.Sound, QueueChange, InstallPolicy, Commit,
      AddManifestEntry, AddNamedDelegate, UpdateMintDelegate, UpdateSpendDelegate, TallyOf;
    used := new TxnContext.Context();
    TxnContext.NewContextIsSound([]);
    if Ready(l) { EmptyUntouched(l); }
    assert TallyOf(TxnContext.EMPTY).spent == {} by { NothingSpent(); }
    match op
    case Queue(kind, o, seed) =>
      used, r := MkTxnQueuingDelegateChange(used, NOTHING_EARLIER, l, h, kind, o, seed);
    case Install(o, seed) =>
      used, r := MkTxnInstallingPolicyDelegate(l, h, o, seed);
    case CommitPending =>
      r := MkTxnCommittingPendingChanges(used, false, l);
    case AddEntry(key, entry) =>
      r := MkTxnAddManifestEntry(used, false, l, key, utxo, entry);
    case UpdateMint(forced, hash, config, seed) =>
      r := MkTxnUpdatingMintDelegate(used, NOTHING_EARLIER, l, h, forced, hash, config, seed);
    case UpdateSpend(forced, hash, config, seed) =>
      r := MkTxnUpdatingSpendDelegate(used, NOTHING_EARLIER, l, h, forced, hash, config, seed);
    case AddNamed(name, uutName, hash, config, seed) =>
      used, r := MkTxnAddingNamedDelegate(used, NOTHING_EARLIER, l, h, name, uutName, hash, config, seed);
  }

  lemma NothingSpent()
    ensures TallyOf(TxnContext.EMPTY).spent == {}
  {
  }

  /** The run's transactions get new ids. */
  ghost predicate NewIds(l: Chain, txIds: seq<string>) {
    && (forall i, j :: 0 <= i < j < |txIds| ==> txIds[i] != txIds[j])
    && (forall id <- Ids(l) :: id.txId !in txIds)
  }

  /** How many outputs the builder of an op has. */
  function Outputs(op: Op): nat {
    if op.AddEntry? || op.UpdateMint? || op.UpdateSpend? then 3 else 4
  }

  /** The seeds hold no authority token and are not the charter: on the present chain, nor among the
      builders' outputs to come, which the wallet's change follows. */
  ghost predicate PlainSeeds(l: Chain, seeds: set<TxOutputId>, ops: seq<Op>, txIds: seq<string>)
    requires |ops| == |txIds|
  {
    forall s <- seeds :: s !in Ids(l) && forall i :: 0 <= i < |txIds| && txIds[i] == s.txId ==> s.index >= Outputs(ops[i])
  }

  /** What the first turn of a run needs. */
  lemma FirstIsPlain(l: Chain, seeds: set<TxOutputId>, ops: seq<Op>, txIds: seq<string>)
    requires |ops| == |txIds| > 0 && NewIds(l, txIds) && PlainSeeds(l, seeds, ops, txIds) && OwnSeeds(ops[0]) <= seeds
    ensures (forall s <- OwnSeeds(ops[0]) :: ReadySeed(l, s)) && forall id <- Ids(l) :: id.txId != txIds[0]
  {
  }

  /** What one turn of a run leaves for the rest of it. */
  lemma RestIsPlain(l: Chain, m: Chain, seeds: set<TxOutputId>, rest: set<TxOutputId>, ops: seq<Op>, txIds: seq<string>)
    requires |ops| == |txIds| > 0 && NewIds(l, txIds) && PlainSeeds(l, seeds, ops, txIds) && rest <= seeds
    requires forall id <- Ids(m) :: id in Ids(l) || (id.txId == txIds[0] && id.index < Outputs(ops[0]))
    ensures NewIds(m, txIds[1..]) && PlainSeeds(m, rest, ops[1..], txIds[1..])
  {
  }

  /** Main result: a run of builders, each on the chain that the one before left, with its transaction
      submitted when it does not throw, ends in the state of the protocol's run, so that each builder
      throws exactly where its step does; and at the end the chain holds every token of the charter
      once, in a utxo of its own. */
  method RunBuilders(h: SeedHash, start: Chain, st: State, ops: seq<Op>, txIds: seq<string>, utxo: TxnContext.Utxo)
    returns (l: Chain, end: State)
    requires Inv(h, st) && Ready(start) && start.charter == st.charter
    requires CharterSafety.RunWellUsed(h, st, ops) && GoodHash(h, st.spent + SeedsOf(ops))
    requires |txIds| == |ops| && NewIds(start, txIds) && PlainSeeds(start, SeedsOf(ops), ops, txIds)
    ensures end == Run(h, st, ops)
    ensures Inv(h, end) && Ready(l) && l.charter == end.charter
    decreases |ops|
  {
    hide Step, Inv, Ready, GoodHash, NewIds, PlainSeeds, CharterSafety.WellUsed;
    l, end := start, st;
    if ops == [] {
      return;
    }
    FirstIsPlain(start, SeedsOf(ops), ops, txIds);
    l, end := Turn(h, start, st, ops[0], txIds[0], utxo, SeedsOf(ops));
    RestIsPlain(start, l, SeedsOf(ops), SeedsOf(ops[1..]), ops, txIds);
    CharterSafety.GoodHashOnFewer(h, end.spent + SeedsOf(ops[1..]), st.spent + SeedsOf(ops));
    l, end := RunBuilders(h, l, end, ops[1..], txIds[1..], utxo);
  }

  lemma GoodCharterOf(h: SeedHash, st: State)
    requires Inv(h, st)
    ensures GoodCharter(st.charter)
  {
  }

  /** What the builder of an op refers to, besides what it spends. */
  function OwnRefs(op: Op, utxo: TxnContext.Utxo): set<TxOutputId> {
    if op.AddEntry? then {utxo.id} else {}
  }

  function OwnSeeds(op: Op): set<TxOutputId> {
    if SeedOf(op).Some? then {SeedOf(op).value} else {}
  }

  lemma TurnKeeps(h: SeedHash, l: Chain, st: State, op: Op, utxo: TxnContext.Utxo, d: TxnContext.Ctx,
                   txId: string, seeds: set<TxOutputId>)
    requires Inv(h, st) && Ready(l) && l.charter == st.charter && CharterSafety.WellUsed(st.charter, op)
    requires Step(h, st, op).Ok? && GoodHash(h, st.spent + seeds) && OwnSeeds(op) <= seeds
    requires (forall s <- OwnSeeds(op) :: ReadySeed(l, s)) && forall id <- Ids(l) :: id.txId != txId
    requires EffectOf(h, l.charter, op).Ok?
             && CarriesOut(l, TxnContext.EMPTY, d, EffectOf(h, l.charter, op).value, OwnSeeds(op), OwnRefs(op, utxo),
                           multiset{}, Outputs(op))
    ensures EndsWithCharter(d.outputs)
    ensures var m, next := After(l, d.traces, d.outputs, txId), Step(h, st, op).value;
            && next == Apply(st, EffectOf(h, st.charter, op).value, SeedOf(op))
            && Inv(h, next) && Ready(m) && m.charter == next.charter && next.spent <= st.spent + seeds
            && (forall id <- Ids(m) :: id in Ids(l) || (id.txId == txId && id.index < Outputs(op)))
  {
    hide EffectOf, Step, Inv, GoodHash, Ready, CarriesOut, ReadySeed, After, CharterSafety.WellUsed;
    CharterSafety.StepIsApply(h, st, op);
    var next := Step(h, st, op).value;
    CharterSafety.GoodHashOnFewer(h, next.spent, st.spent + seeds);
    CharterSafety.StepKeepsInv(h, st, op);
    ReadyIsKept(h, st, l, d, EffectOf(h, st.charter, op).value, SeedOf(op), OwnSeeds(op), OwnRefs(op, utxo), Outputs(op), txId);
  }

  /** One builder, and its transaction submitted unless its seed is spent. */
  method Turn(h: SeedHash, start: Chain, st: State, op: Op, txId: string, utxo: TxnContext.Utxo, ghost seeds: set<TxOutputId>)
    returns (l: Chain, end: State)
    requires Inv(h, st) && Ready(start) && start.charter == st.charter
    requires Step(h, st, op).Ok? ==> CharterSafety.WellUsed(st.charter, op)
    requires GoodHash(h, st.spent + seeds) && OwnSeeds(op) <= seeds
    requires (forall s <- OwnSeeds(op) :: ReadySeed(start, s)) && forall id <- Ids(start) :: id.txId != txId
    ensures end == match Step(h, st, op) case Ok(next) => next case Err(_) => st
    ensures Inv(h, end) && Ready(l) && l.charter == end.charter
    ensures end.spent <= st.spent + seeds
    ensures forall id <- Ids(l) :: id in Ids(start) || (id.txId == txId && id.index < Outputs(op))
  {
    hide Inv, GoodHash, Ready, CarriesOut, ReadySeed, After, EffectOf, GoodCharter, CharterSafety.WellUsed;
    l, end := start, st;
    GoodCharterOf(h, st);
    var seed := SeedOf(op);
    if seed.Some? && seed.value in st.spent {
      return;
    }
    var tcx, r := Build(h, start, op, utxo);
    if r.Ok? {
      end := Apply(st, EffectOf(h, st.charter, op).value, seed);
      TurnKeeps(h, start, st, op, utxo, tcx.View(), txId, seeds);
      l := After(start, tcx.inputStackTraces, tcx.outputs, txId);
    }
  }
}
