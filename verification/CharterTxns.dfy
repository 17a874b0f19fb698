/**
 * The charter builders as they assemble a transaction: each grant of authority, each mint and
 * burn, and the charter spent and put back. The charter record they deposit and the tokens they
 * mint and burn are those of the functions in CharterModel; what is proved here besides is what
 * every builder adds to the context it is given, that it balances, and that on a chain that holds
 * the charter's tokens the builder throws only when that function does.
 */
module CharterTxns {
  import opened Wrappers
  import opened OrderedMap
  import opened CharterModel
  import opened CharterProtocol
  import opened CharterInvariant
  import opened TxnContext

  /** The chain as a builder sees it: where each authority token is held, alone, and the charter. */
  datatype Chain = Chain(at: map<string, TxOutputId>, charterId: TxOutputId, charter: Charter)

  datatype TxError = Refused | TokenNotFound | AlreadyGranted | Rejected(error: Error)

  const CHARTER := "charter"

  /** The chain holds each token of the charter once, in a utxo of its own. */
  ghost predicate Ready(l: Chain) {
    && (forall t <- Tokens(l.charter) :: t in l.at && Tokens(l.charter)[t] == 1)
    && (forall s, t :: s in l.at && t in l.at && l.at[s] == l.at[t] ==> s == t)
    && l.charterId !in l.at.Values
  }

  /** The seed is a plain utxo of the wallet. */
  ghost predicate ReadySeed(l: Chain, seed: TxOutputId) {
    seed !in l.at.Values && seed != l.charterId
  }

  /** What the state of a caller's context already records: whether the governance token has been
      granted, and the names minted earlier that a further mint repeats. */
  datatype Earlier = Earlier(govAuthority: bool, uuts: multiset<string>)

  const NOTHING_EARLIER := Earlier(false, multiset{})

  // ----- what a context has taken in and put out -----

  predicate AllSingle(outs: seq<Output>) {
    outs != [] ==> |outs[0].tokens| == 1 && AllSingle(outs[1..])
  }

  lemma {:induction false} AllSingleSnoc(outs: seq<Output>, o: Output)
    ensures AllSingle(outs + [o]) <==> AllSingle(outs) && |o.tokens| == 1
  {
    if outs == [] {
      assert (outs + [o])[1..] == [];
    } else {
      assert (outs + [o])[1..] == outs[1..] + [o];
      AllSingleSnoc(outs[1..], o);
    }
  }

  /** The tokens taken in, put out, minted and burned, the utxos spent, those spent or referred to, and
      whether every output carries one token. */
  datatype Tally = Tally(
    taken: multiset<string>, put: multiset<string>, minted: multiset<string>, burned: multiset<string>,
    spent: set<TxOutputId>, seen: set<TxOutputId>, single: bool)

  function TallyOf(c: Ctx): Tally {
    Tally(TokensIn(c.inputs), TokensOut(c.outputs), c.minted, c.burned, c.traces, IdsOf(c.refs) + IdsOf(c.inputs),
          AllSingle(c.outputs))
  }

  ghost predicate Holds(c: Ctx, t: Tally) {
    TallyOf(c) == t && c.isFacade != IsFacade
  }

  function Take(t: Tally, token: string, id: TxOutputId): Tally {
    t.(taken := t.taken + multiset{token}, spent := t.spent + {id}, seen := t.seen + {id})
  }

  function Give(t: Tally, token: string): Tally {
    t.(put := t.put + multiset{token})
  }

  /** Taken in and given back. */
  function PassOn(t: Tally, token: string, id: TxOutputId): Tally {
    Give(Take(t, token, id), token)
  }

  function MintBurn(t: Tally, minted: multiset<string>, burned: multiset<string>): Tally {
    t.(minted := t.minted + minted, burned := t.burned + burned)
  }

  function Seeded(t: Tally, seed: TxOutputId): Tally {
    t.(spent := t.spent + {seed}, seen := t.seen + {seed})
  }

  function Referring(t: Tally, id: TxOutputId): Tally {
    t.(seen := t.seen + {id})
  }

  /** A token is granted: taken in, and given back unless that is skipped. */
  function Grant(t: Tally, l: Chain, token: string, skipReturning: bool): Tally
    requires token in l.at
  {
    if skipReturning then Take(t, token, l.at[token]) else PassOn(t, token, l.at[token])
  }

  predicate Grantable(t: Tally, l: Chain, token: string) {
    token !in t.taken && token in l.at && l.at[token] !in t.spent
  }

  /** Neither the charter nor one of its tokens has been spent in the context, except the governance
      token when that is granted already. */
  ghost predicate Untouched(t: Tally, l: Chain, hasGov: bool) {
    && (forall x <- Tokens(l.charter) :: (hasGov && x == l.charter.govAuthorityLink.uutName) || Grantable(t, l, x))
    && l.charterId !in t.spent
  }

  /** What a builder adds to a context: its mint and burn, the mint of earlier names that it repeats,
      the seeds it may have spent, the utxos it refers to, and how many outputs at most. */
  datatype Added = Added(
    minted: multiset<string>, burned: multiset<string>, uuts: multiset<string>, seeds: set<TxOutputId>,
    refs: set<TxOutputId>, outputs: nat)

  /** From `c` on, `d` carries out the effect: it adds its mint and burn, and ends by putting back the
      charter with the effect's record. */
  ghost predicate CarriesOut(l: Chain, c: Ctx, d: Ctx, e: Effect, seeds: set<TxOutputId>, refs: set<TxOutputId>,
                             uuts: multiset<string>, outputs: nat) {
    && Adds(l, TallyOf(c), TallyOf(d), Added(e.minted, e.burned, uuts, seeds, refs, outputs))
    && Deposited(d, e.charter)
  }

  /** The mint and burn are added; otherwise what is taken in is put out; nothing is spent but the seeds,
      the charter and the utxos of the tokens taken in; and nothing else is referred to but the references
      to be added, and all of these that are not spent. */
  predicate Adds(l: Chain, t: Tally, u: Tally, a: Added) {
    && u.minted == t.minted + a.minted + a.uuts && u.burned == t.burned + a.burned
    && u.taken + a.minted + t.put == u.put + a.burned + t.taken
    && t.taken <= u.taken && u.spent <= t.spent + a.seeds + {l.charterId} + HeldAt(l, u.taken)
    && a.refs <= u.seen && t.seen <= u.seen <= t.seen + a.seeds + a.refs + {l.charterId} + HeldAt(l, u.taken)
    && u.single == t.single && |u.put| <= |t.put| + a.outputs
  }

  function HeldAt(l: Chain, tokens: multiset<string>): set<TxOutputId> {
    set x <- tokens | x in l.at :: l.at[x]
  }

  /** The next charter is the last thing put out. */
  predicate Deposited(c: Ctx, next: Charter) {
    c.outputs != [] && c.outputs[|c.outputs| - 1] == Output(multiset{CHARTER}, Some(next))
  }

  /** Main result: what was balanced stays balanced exactly when no earlier names are minted again;
      a builder's own new context always balances. */
  lemma CarriedOutBalances(l: Chain, c: Ctx, d: Ctx, e: Effect, seeds: set<TxOutputId>, refs: set<TxOutputId>,
                           uuts: multiset<string>, outputs: nat)
    requires CarriesOut(l, c, d, e, seeds, refs, uuts, outputs) && Balanced(c)
    ensures Balanced(d) <==> uuts == multiset{}
  {
    var t, u := TallyOf(c), TallyOf(d);
    forall k ensures u.taken[k] + u.minted[k] == u.put[k] + u.burned[k] + uuts[k] {
      assert (u.taken + e.minted + t.put)[k] == (u.put + e.burned + t.taken)[k];
      assert (t.taken + t.minted)[k] == (t.put + t.burned)[k];
    }
    if Balanced(d) {
      forall k ensures uuts[k] == 0 {
        assert (u.taken + u.minted)[k] == (u.put + u.burned)[k];
      }
    }
    assert uuts == multiset{} ==> u.taken + u.minted == u.put + u.burned;
  }

  // ----- the partial transactions -----

  /** `hasAuthorityToken`. */
  predicate AnyHolds(us: seq<Utxo>, token: string) {
    us != [] && (token in us[0].tokens || AnyHolds(us[1..], token))
  }

  lemma {:induction false} AnyHoldsIsTokenIn(us: seq<Utxo>, token: string)
    ensures AnyHolds(us, token) <==> token in TokensIn(us)
  {
    if us != [] {
      AnyHoldsIsTokenIn(us[1..], token);
    }
  }

  /** An input of one token, when it is not refused. */
  lemma TookIn(c: Ctx, token: string, id: TxOutputId)
    ensures var o := AddInput(c, Utxo(id, multiset{token}), true, true);
            && (o.threw <==> c.isFacade == IsFacade || id in TallyOf(c).spent)
            && (!o.threw ==> Holds(o.ctx, Take(TallyOf(c), token, id)))
  {
    TokensInSnoc(c.inputs, Utxo(id, multiset{token}));
    IdsOfSnoc(c.inputs, Utxo(id, multiset{token}));
  }

  /** An output of one token. */
  lemma PutOut(c: Ctx, token: string, datum: Option<Charter>)
    requires c.isFacade != IsFacade
    ensures var o := AddOutput(c, Output(multiset{token}, datum), true);
            !o.threw && Holds(o.ctx, Give(TallyOf(c), token))
  {
    TokensOutSnoc(c.outputs, Output(multiset{token}, datum));
    AllSingleSnoc(c.outputs, Output(multiset{token}, datum));
  }

  lemma SeedTakenIn(c: Ctx, seed: TxOutputId)
    requires c.seed.None?
    ensures var o := WithSeed(c, None, Utxo(seed, multiset{}), true);
            && (o.threw <==> c.isFacade == IsFacade || seed in TallyOf(c).spent)
            && (!o.threw ==> Holds(o.ctx, Seeded(TallyOf(c), seed)))
  {
    TokensInSnoc(c.inputs, Utxo(seed, multiset{}));
    IdsOfSnoc(c.inputs, Utxo(seed, multiset{}));
  }

  lemma CharterPassed(c: Ctx, id: TxOutputId, next: Charter)
    requires c.isFacade != IsFacade
    ensures var o := UseCharter(c, None, Utxo(id, multiset{CHARTER}), Output(multiset{CHARTER}, Some(next)), true);
            && (o.threw <==> id in TallyOf(c).spent)
            && (!o.threw ==> Holds(o.ctx, PassOn(TallyOf(c), CHARTER, id)) && Deposited(o.ctx, next)
                             && id !in IdsOf(o.ctx.builderRefs))
  {
    WithoutIdDrops(c.builderRefs, id);
    var d := NoFacade(c).ctx.(builderRefs := WithoutId(c.builderRefs, id));
    assert TallyOf(d) == TallyOf(c);
    TookIn(d, CHARTER, id);
    var o := AddInput(d, Utxo(id, multiset{CHARTER}), true, true);
    if !o.threw { PutOut(o.ctx, CHARTER, Some(next)); }
  }

  /** `txnGrantAuthority`: spends the utxo that holds the token and, unless told to skip that,
      returns the token. A token that is already in is an error unless `ifExists` is given. */
  method GrantAuthority(tcx: Context, l: Chain, token: string, skipReturning: bool, ifExists: bool, ghost t: Tally)
    returns (r: Result<(), TxError>)
    requires TallyOf(tcx.View()) == t
    modifies tcx
    ensures r.Ok? <==> (token in t.taken && ifExists) || (Grantable(t, l, token) && old(tcx.isFacade) != IsFacade)
    ensures r.Ok? && token in t.taken ==> tcx.View() == old(tcx.View())
    ensures r.Ok? && token !in t.taken ==> Holds(tcx.View(), Grant(t, l, token, skipReturning))
  {
    AnyHoldsIsTokenIn(tcx.inputs, token);
    if AnyHolds(tcx.inputs, token) {
      return if ifExists then Ok(()) else Err(AlreadyGranted);
    }
    if token !in l.at {
      return Err(TokenNotFound);
    }
    var u, out := Utxo(l.at[token], multiset{token}), Output(multiset{token}, None);
    hide TokensIn, TokensOut, IdsOf, AllSingle;
    TookIn(tcx.View(), token, l.at[token]);
    hide TallyOf, AddInput, AddOutput;
    var threw := tcx.Spend(u, true, true);
    if threw {
      return Err(Refused);
    }
    if !skipReturning {
      PutOut(tcx.View(), token, None);
      threw := tcx.Put(out, true);
    }
    r := Ok(());
  }

  /** `tcxWithSeedUtxo`: a context that has a seed keeps it. */
  method AddSeed(tcx: Context, seed: TxOutputId, ghost t: Tally) returns (r: Result<TxOutputId, TxError>)
    requires TallyOf(tcx.View()) == t && Sound(tcx.View())
    modifies tcx
    ensures old(tcx.seedUtxo).Some? ==> r == Ok(old(tcx.seedUtxo).value.id) && Holds(tcx.View(), t)
    ensures old(tcx.seedUtxo).None? ==> (r.Ok? <==> old(tcx.isFacade) != IsFacade && seed !in t.spent)
    ensures old(tcx.seedUtxo).None? && r.Ok? ==> r.value == seed && Holds(tcx.View(), Seeded(t, seed))
  {
    if tcx.seedUtxo.Some? {
      return Ok(tcx.seedUtxo.value.id);
    }
    SeedTakenIn(tcx.View(), seed);
    hide TallyOf, WithSeed;
    var threw := tcx.AddSeed(None, Utxo(seed, multiset{}), true);
    r := if threw then Err(Refused) else Ok(seed);
  }

  /** All the minting and burning of a transaction is recorded in one instruction. */
  method MintAndBurn(tcx: Context, minted: multiset<string>, burned: multiset<string>, ghost t: Tally)
    requires Holds(tcx.View(), t)
    modifies tcx
    ensures Holds(tcx.View(), MintBurn(t, minted, burned))
  {
    var threw := tcx.Mint(minted, burned);
  }

  /** `txnReceiveAuthorityToken`: a new token goes to its delegate. */
  method Deposit(tcx: Context, token: string, ghost t: Tally)
    requires Holds(tcx.View(), t)
    modifies tcx
    ensures Holds(tcx.View(), Give(t, token))
  {
    PutOut(tcx.View(), token, None);
    hide TallyOf, AddOutput;
    var threw := tcx.Put(Output(multiset{token}, None), true);
  }

  /** `mkTxnUpdateCharter`: the charter is spent, put back with its next record, and no longer
      referred to. */
  method UpdateCharter(tcx: Context, l: Chain, next: Charter, ghost t: Tally) returns (r: Result<(), TxError>)
    requires Holds(tcx.View(), t)
    modifies tcx
    ensures r.Ok? <==> l.charterId !in t.spent
    ensures r.Ok? ==> Holds(tcx.View(), PassOn(t, CHARTER, l.charterId)) && Deposited(tcx.View(), next)
    ensures r.Ok? ==> l.charterId !in IdsOf(tcx.builderRefs)
  {
    var charter := Utxo(l.charterId, multiset{CHARTER});
    var out := Output(multiset{CHARTER}, Some(next));
    CharterPassed(tcx.View(), l.charterId, next);
    hide TallyOf, UseCharter, Deposited;
    var threw := tcx.SpendCharter(None, charter, out, true);
    r := if threw then Err(Refused) else Ok(());
  }

  /** The tally once the governance token is in. */
  function WithGov(t: Tally, l: Chain, hasGov: bool): Tally
    requires hasGov || l.charter.govAuthorityLink.uutName in l.at
  {
    if hasGov then t else Grant(t, l, l.charter.govAuthorityLink.uutName, false)
  }

  /** `txnAddGovAuthority`, which grants the governance token once for a context. */
  method AddGov(tcx: Context, hasGov: bool, l: Chain, ghost t: Tally) returns (r: Result<(), TxError>)
    requires TallyOf(tcx.View()) == t
    modifies tcx
    ensures r.Ok? <==> hasGov || (Grantable(t, l, l.charter.govAuthorityLink.uutName) && old(tcx.isFacade) != IsFacade)
    ensures r.Ok? ==> TallyOf(tcx.View()) == WithGov(t, l, hasGov)
    ensures r.Ok? && old(tcx.isFacade) != IsFacade ==> tcx.isFacade != IsFacade
  {
    hide TallyOf;
    if !hasGov {
      var _ :- GrantAuthority(tcx, l, l.charter.govAuthorityLink.uutName, false, false, t);
    }
    r := Ok(());
  }

  predicate Finishable(t: Tally, l: Chain, hasGov: bool) {
    (hasGov || Grantable(t, l, l.charter.govAuthorityLink.uutName)) && l.charterId !in WithGov(t, l, hasGov).spent
  }

  function Finished(t: Tally, l: Chain, hasGov: bool): Tally
    requires Finishable(t, l, hasGov)
  {
    PassOn(WithGov(t, l, hasGov), CHARTER, l.charterId)
  }

  /** How every builder that mints ends: the governance token granted, and the charter put back. */
  method FinishWithGov(tcx: Context, hasGov: bool, l: Chain, next: Charter, ghost t: Tally) returns (r: Result<(), TxError>)
    requires Holds(tcx.View(), t)
    modifies tcx
    ensures r.Ok? <==> Finishable(t, l, hasGov)
    ensures r.Ok? ==> Holds(tcx.View(), Finished(t, l, hasGov)) && Deposited(tcx.View(), next)
  {
    hide TallyOf;
    var _ :- AddGov(tcx, hasGov, l, t);
    var _ :- UpdateCharter(tcx, l, next, WithGov(t, l, hasGov));
    r := Ok(());
  }

  // What is added to a context, step by step.

  lemma PassedOnAdds(l: Chain, t0: Tally, t: Tally, token: string, id: TxOutputId, a: Added)
    requires Adds(l, t0, t, a) && (id == l.charterId || (token in l.at && l.at[token] == id))
    ensures Adds(l, t0, PassOn(t, token, id), a.(outputs := a.outputs + 1))
  {
    var u := PassOn(t, token, id);
    forall k ensures (u.taken + a.minted + t0.put)[k] == (u.put + a.burned + t0.taken)[k] {
      assert (t.taken + a.minted + t0.put)[k] == (t.put + a.burned + t0.taken)[k];
    }
    assert HeldAt(l, t.taken) <= HeldAt(l, u.taken);
  }

  lemma FinishedAdds(l: Chain, t0: Tally, t: Tally, hasGov: bool, a: Added)
    requires Finishable(t, l, hasGov) && Adds(l, t0, t, a)
    ensures Adds(l, t0, Finished(t, l, hasGov), a.(outputs := a.outputs + 2))
  {
    hide Adds;
    var gov := l.charter.govAuthorityLink.uutName;
    if hasGov {
      AtMost(l, t0, t, a, a.(outputs := a.outputs + 1));
    } else {
      PassedOnAdds(l, t0, t, gov, l.at[gov], a);
    }
    PassedOnAdds(l, t0, WithGov(t, l, hasGov), CHARTER, l.charterId, a.(outputs := a.outputs + 1));
  }

  /** Seeds and outputs are bounds. */
  lemma AtMost(l: Chain, t: Tally, u: Tally, a: Added, b: Added)
    requires Adds(l, t, u, a) && b == a.(seeds := b.seeds, outputs := b.outputs)
    requires a.seeds <= b.seeds && a.outputs <= b.outputs
    ensures Adds(l, t, u, b)
  {
  }

  // ----- the chain's tokens are apart -----

  lemma RolesApart(l: Chain)
    requires Ready(l)
    ensures var c := l.charter;
            var gov := c.govAuthorityLink.uutName;
            var mint := c.mintDelegateLink.uutName;
            var spend := c.spendDelegateLink.uutName;
            && gov != mint && gov != spend && mint != spend
            && gov in l.at && mint in l.at && spend in l.at
            && gov in Tokens(c) && mint in Tokens(c) && spend in Tokens(c)
            && gov !in OtherTokens(c) && mint !in OtherTokens(c) && spend !in OtherTokens(c)
  {
    var c := l.charter;
    var three := multiset{c.govAuthorityLink.uutName, c.mintDelegateLink.uutName, c.spendDelegateLink.uutName};
    assert forall t <- three :: t in Tokens(c) && Tokens(c)[t] == three[t] + OtherTokens(c)[t];
  }

  lemma HeldApart(l: Chain, x: string, y: string)
    requires Ready(l) && x in l.at && y in l.at && x != y
    ensures l.at[x] != l.at[y] && l.at[x] != l.charterId
  {
    assert l.at[x] in l.at.Values;
  }

  /** A grant leaves every other token, and the charter, as free as it was. */
  lemma GrantLeaves(t: Tally, l: Chain, token: string, skipReturning: bool, x: string)
    requires Ready(l) && token in l.at && x != token && Grantable(t, l, x)
    ensures Grantable(Grant(t, l, token, skipReturning), l, x)
    ensures l.charterId !in t.spent ==> l.charterId !in Grant(t, l, token, skipReturning).spent
  {
    hide Ready;
    HeldApart(l, token, x);
  }

  /** A seed does not touch the charter's utxos. */
  lemma SeededUntouched(t: Tally, l: Chain, hasGov: bool, seed: TxOutputId)
    requires Untouched(t, l, hasGov) && ReadySeed(l, seed)
    ensures Untouched(Seeded(t, seed), l, hasGov)
  {
    hide Tokens;
    forall x <- Tokens(l.charter) ensures Grantable(t, l, x) ==> Grantable(Seeded(t, seed), l, x) {
      assert x in l.at ==> l.at[x] in l.at.Values;
    }
  }

  // ----- builders that mint one token -----

  /** The new token minted under the mint delegate's authority, and deposited. */
  function QueueTally(t: Tally, l: Chain, token: string, uuts: multiset<string>): Tally
    requires l.charter.mintDelegateLink.uutName in l.at
  {
    Give(Grant(MintBurn(t, multiset{token} + uuts, multiset{}), l, l.charter.mintDelegateLink.uutName, false), token)
  }

  lemma QueueFits(t: Tally, l: Chain, token: string, uuts: multiset<string>, hasGov: bool)
    requires Ready(l) && Untouched(t, l, hasGov)
    ensures Grantable(MintBurn(t, multiset{token} + uuts, multiset{}), l, l.charter.mintDelegateLink.uutName)
    ensures Finishable(QueueTally(t, l, token, uuts), l, hasGov)
  {
    hide Ready, Tokens;
    RolesApart(l);
    var c := l.charter;
    HeldApart(l, c.mintDelegateLink.uutName, c.govAuthorityLink.uutName);
    HeldApart(l, c.govAuthorityLink.uutName, c.mintDelegateLink.uutName);
  }

  lemma QueueAdds(t: Tally, l: Chain, token: string, uuts: multiset<string>)
    requires l.charter.mintDelegateLink.uutName in l.at
    ensures Adds(l, t, QueueTally(t, l, token, uuts), Added(multiset{token}, multiset{}, uuts, {}, {}, 2))
  {
  }

  /** `mkTxnQueuingDelegateChange`, from the minting of the new token on. */
  method QueueTxn(tcx: Context, earlier: Earlier, l: Chain, token: string, pendingAlready: bool, next: Charter,
                  ghost t: Tally) returns (r: Result<(), TxError>)
    requires Holds(tcx.View(), t)
    modifies tcx
    ensures r.Ok? ==> !pendingAlready && Deposited(tcx.View(), next)
                      && Adds(l, t, TallyOf(tcx.View()), Added(multiset{token}, multiset{}, earlier.uuts, {}, {}, 4))
    ensures Ready(l) && Untouched(t, l, earlier.govAuthority) ==> (r.Ok? <==> !pendingAlready)
  {
    hide TallyOf, Ready, Untouched, Finishable, Finished, Adds, Deposited;
    var mint := l.charter.mintDelegateLink.uutName;
    if Ready(l) && Untouched(t, l, earlier.govAuthority) { QueueFits(t, l, token, earlier.uuts, earlier.govAuthority); }
    MintAndBurn(tcx, multiset{token} + earlier.uuts, multiset{}, t);
    ghost var u := MintBurn(t, multiset{token} + earlier.uuts, multiset{});
    var _ :- GrantAuthority(tcx, l, mint, false, false, u);
    u := Grant(u, l, mint, false);
    Deposit(tcx, token, u);
    u := Give(u, token);
    if pendingAlready {
      return Err(Rejected(AlreadyPending));
    }
    var _ :- FinishWithGov(tcx, earlier.govAuthority, l, next, u);
    QueueAdds(t, l, token, earlier.uuts);
    FinishedAdds(l, t, u, earlier.govAuthority, Added(multiset{token}, multiset{}, earlier.uuts, {}, {}, 2));
    r := Ok(());
  }

  /** Whether a builder that mints goes on with the caller's context: it does if that has a seed, and
      otherwise starts one of its own. */
  predicate KeepsContext(c: Ctx) {
    c.seed.Some?
  }

  function SeedFor(c: Ctx, seed: TxOutputId): TxOutputId {
    if KeepsContext(c) then c.seed.value.id else seed
  }

  /** What the builder's context records when it begins. */
  function BeginsAs(c: Ctx): Ctx {
    if KeepsContext(c) then c else EMPTY
  }

  function BeginsWith(c: Ctx, earlier: Earlier): Earlier {
    if KeepsContext(c) then earlier else NOTHING_EARLIER
  }

  /** The chain fits the context that the builder begins with. */
  ghost predicate Fits(c: Ctx, earlier: Earlier, l: Chain, seed: TxOutputId) {
    && Ready(l)
    && if KeepsContext(c) then Untouched(TallyOf(c), l, earlier.govAuthority) else ReadySeed(l, seed)
  }

  /** The context a minting builder goes on with, seeded. */
  method WithOwnSeed(tcx: Context, seed: TxOutputId) returns (used: Context, ghost t: Tally)
    requires Sound(tcx.View())
    ensures if tcx.seedUtxo.Some? then used == tcx else fresh(used)
    ensures Holds(used.View(), t)
    ensures t == if KeepsContext(tcx.View()) then TallyOf(tcx.View()) else Seeded(TallyOf(EMPTY), seed)
    ensures tcx.View() == old(tcx.View())
  {
    used := tcx;
    if tcx.seedUtxo.None? {
      used := new Context();
      var seeded := AddSeed(used, seed, TallyOf(EMPTY));
    }
    t := TallyOf(used.View());
  }

  lemma EmptyUntouched(l: Chain)
    requires Ready(l)
    ensures Untouched(TallyOf(EMPTY), l, false)
  {
    hide Tokens;
  }

  lemma FitsUntouched(c: Ctx, earlier: Earlier, l: Chain, seed: TxOutputId)
    requires Fits(c, earlier, l, seed)
    ensures Untouched(if KeepsContext(c) then TallyOf(c) else Seeded(TallyOf(EMPTY), seed), l,
                      BeginsWith(c, earlier).govAuthority)
  {
    hide Untouched, TallyOf, Ready, ReadySeed;
    if !KeepsContext(c) {
      EmptyUntouched(l);
      SeededUntouched(TallyOf(EMPTY), l, false, seed);
    }
  }

  lemma SeededAdds(l: Chain, t: Tally, seed: TxOutputId, begin: Tally, u: Tally, a: Added)
    requires Adds(l, begin, u, a) && (begin == t || begin == Seeded(t, seed)) && a.seeds <= {seed}
    ensures Adds(l, t, u, a.(seeds := {seed}))
  {
  }

  /** `mkTxnQueuingDelegateChange`. */
  method MkTxnQueuingDelegateChange(tcx: Context, earlier: Earlier, l: Chain, h: SeedHash, kind: ChangeKind, o: QueueOptions,
                                    seed: TxOutputId) returns (used: Context, r: Result<(), TxError>)
    requires Sound(tcx.View())
    modifies tcx
    ensures r.Ok? ==> if old(tcx.seedUtxo).Some? then used == tcx else fresh(used)
    ensures var c := old(tcx.View());
            var e := QueueChange(h, l.charter, kind, o, SeedFor(c, seed));
            && (r.Ok? ==> e.Ok? && CarriesOut(l, BeginsAs(c), used.View(), e.value, {seed}, {}, BeginsWith(c, earlier).uuts, 4))
            && (Fits(c, earlier, l, seed) ==> (r.Ok? <==> e.Ok?))
  {
    hide Ready, Untouched, Adds, Deposited, TallyOf, Sound;
    var c := l.charter;
    if |Purpose(o)| > MAX_PURPOSE {
      return tcx, Err(Rejected(PurposeTooLong));
    }
    var controller := FindController(c.manifest, o.typeName);
    if controller.Err? {
      return tcx, Err(Rejected(controller.error));
    }
    ghost var begin := tcx.View();
    ghost var t;
    used, t := WithOwnSeed(tcx, seed);
    if Fits(begin, earlier, l, seed) { FitsUntouched(begin, earlier, l, seed); }
    var existing := FindPolicy(c.manifest, o.typeName);
    var checked := CheckKind(kind, controller.value, existing, o.scripts);
    if checked.Err? {
      return used, Err(Rejected(checked.error));
    }
    var own := if tcx.seedUtxo.Some? then tcx.seedUtxo.value.id else seed;
    var before := if tcx.seedUtxo.Some? then earlier else NOTHING_EARLIER;
    r := QueueTxn(used, before, l, UutNameOf(h, Purpose(o), own), FindPending(c.pendingChanges, kind, o.typeName),
                  c.(pendingChanges := [MkPending(h, kind, existing, o, own)] + c.pendingChanges), t);
    if r.Ok? {
      SeededAdds(l, TallyOf(BeginsAs(begin)), seed, t, TallyOf(used.View()),
                 Added(multiset{UutNameOf(h, Purpose(o), own)}, multiset{}, before.uuts, {}, {}, 4));
    }
  }

  /** `mkTxnInstallingPolicyDelegate`, which starts a context of its own. */
  method MkTxnInstallingPolicyDelegate(l: Chain, h: SeedHash, o: QueueOptions, seed: TxOutputId)
    returns (used: Context, r: Result<(), TxError>)
    ensures r.Ok? ==> fresh(used)
    ensures var e := InstallPolicy(h, l.charter, o, seed);
            && (r.Ok? ==> e.Ok? && CarriesOut(l, EMPTY, used.View(), e.value, {seed}, {}, multiset{}, 4))
            && (Ready(l) && ReadySeed(l, seed) ==> (r.Ok? <==> e.Ok?))
  {
    hide Ready, ReadySeed, Untouched, CarriesOut, QueueChange, TallyOf;
    var tcx := new Context();
    OwnSeed(seed);
    var threw := tcx.AddSeed(None, Utxo(seed, multiset{}), true);
    if Ready(l) && ReadySeed(l, seed) { OwnContextFits(tcx.View(), l, seed); }
    var replace := FindPolicy(l.charter.manifest, o.typeName).Some?;
    ghost var begin := tcx.View();
    used, r := MkTxnQueuingDelegateChange(tcx, NOTHING_EARLIER, l, h, if replace then ReplaceChange else AddChange, o, seed);
    if r.Ok? {
      OwnContextCarries(l, begin, used.View(), InstallPolicy(h, l.charter, o, seed).value, seed, 4);
    }
  }

  /** `mkTxnAddingNamedDelegate`. */
  method MkTxnAddingNamedDelegate(tcx: Context, earlier: Earlier, l: Chain, h: SeedHash, name: string, uutName: string,
                                  scriptHash: Option<string>, config: string, seed: TxOutputId)
    returns (used: Context, r: Result<(), TxError>)
    requires Sound(tcx.View())
    modifies tcx
    ensures r.Ok? ==> if old(tcx.seedUtxo).Some? then used == tcx else fresh(used)
    ensures var c := old(tcx.View());
            var e := AddNamedDelegate(h, l.charter, name, uutName, scriptHash, config, SeedFor(c, seed));
            && (r.Ok? ==> e.Ok? && CarriesOut(l, BeginsAs(c), used.View(), e.value, {seed}, {}, BeginsWith(c, earlier).uuts, 4))
            && (Fits(c, earlier, l, seed) ==> (r.Ok? <==> e.Ok?))
  {
    hide Ready, Untouched, Adds, Deposited, TallyOf, Sound;
    var c := l.charter;
    var purpose := if uutName == "" then name else uutName;
    if |purpose| > MAX_PURPOSE {
      return tcx, Err(Rejected(PurposeTooLong));
    }
    ghost var begin := tcx.View();
    ghost var t;
    used, t := WithOwnSeed(tcx, seed);
    if Fits(begin, earlier, l, seed) { FitsUntouched(begin, earlier, l, seed); }
    var own := if tcx.seedUtxo.Some? then tcx.seedUtxo.value.id else seed;
    var before := if tcx.seedUtxo.Some? then earlier else NOTHING_EARLIER;
    var token := UutNameOf(h, purpose, own);
    r := QueueTxn(used, before, l, token, false,
                  c.(otherNamedDelegates := FromEntries(c.otherNamedDelegates + [(name, Link(token, scriptHash, config))])), t);
    if r.Ok? {
      SeededAdds(l, TallyOf(BeginsAs(begin)), seed, t, TallyOf(used.View()),
                 Added(multiset{token}, multiset{}, before.uuts, {}, {}, 4));
    }
  }

  // ----- builders that replace a delegate's token -----

  /** A delegate's token replaced by a new one: burned under its own authority, unless forced. */
  function ReplaceTally(t: Tally, l: Chain, token: string, previous: string, forced: bool, uuts: multiset<string>): Tally
    requires forced || previous in l.at
  {
    if forced then Give(MintBurn(t, multiset{token} + uuts, multiset{}), token)
    else Give(Grant(MintBurn(t, multiset{token} + uuts, multiset{previous}), l, previous, true), token)
  }

  lemma ReplaceFits(t: Tally, l: Chain, token: string, previous: string, forced: bool, uuts: multiset<string>, hasGov: bool)
    requires Ready(l) && Untouched(t, l, hasGov)
    requires previous == l.charter.mintDelegateLink.uutName || previous == l.charter.spendDelegateLink.uutName
    ensures previous in l.at
    ensures Grantable(MintBurn(t, multiset{token} + uuts, multiset{previous}), l, previous)
    ensures Finishable(ReplaceTally(t, l, token, previous, forced, uuts), l, hasGov)
  {
    hide Ready, Tokens;
    RolesApart(l);
    HeldApart(l, previous, l.charter.govAuthorityLink.uutName);
    HeldApart(l, l.charter.govAuthorityLink.uutName, previous);
  }

  function Replacing(token: string, previous: string, forced: bool, uuts: multiset<string>, outputs: nat): Added {
    Added(multiset{token}, if forced then multiset{} else multiset{previous}, uuts, {}, {}, outputs)
  }

  lemma ReplaceAdds(t: Tally, l: Chain, token: string, previous: string, forced: bool, uuts: multiset<string>)
    requires forced || previous in l.at
    ensures Adds(l, t, ReplaceTally(t, l, token, previous, forced, uuts), Replacing(token, previous, forced, uuts, 1))
  {
    var u := ReplaceTally(t, l, token, previous, forced, uuts);
    var burned := if forced then multiset{} else multiset{previous};
    forall k ensures (u.taken + multiset{token} + t.put)[k] == (u.put + burned + t.taken)[k] {
    }
  }

  lemma ReplacedAdds(t: Tally, l: Chain, token: string, previous: string, forced: bool, uuts: multiset<string>, hasGov: bool)
    requires forced || previous in l.at
    requires Finishable(ReplaceTally(t, l, token, previous, forced, uuts), l, hasGov)
    ensures Adds(l, t, Finished(ReplaceTally(t, l, token, previous, forced, uuts), l, hasGov),
                 Replacing(token, previous, forced, uuts, 3))
  {
    hide ReplaceTally, Finishable, Finished, Adds;
    ReplaceAdds(t, l, token, previous, forced, uuts);
    FinishedAdds(l, t, ReplaceTally(t, l, token, previous, forced, uuts), hasGov, Replacing(token, previous, forced, uuts, 1));
  }

  /** The common course of the two delegate updates, from the minting of the new token on. */
  method ReplaceTxn(tcx: Context, earlier: Earlier, l: Chain, token: string, previous: string, forced: bool, next: Charter,
                    ghost t: Tally) returns (r: Result<(), TxError>)
    requires Holds(tcx.View(), t)
    requires previous == l.charter.mintDelegateLink.uutName || previous == l.charter.spendDelegateLink.uutName
    modifies tcx
    ensures r.Ok? ==> Deposited(tcx.View(), next)
                      && Adds(l, t, TallyOf(tcx.View()), Replacing(token, previous, forced, earlier.uuts, 3))
    ensures Ready(l) && Untouched(t, l, earlier.govAuthority) ==> r.Ok?
  {
    hide TallyOf, Ready, Untouched, Finishable, Finished, Adds, Deposited, Replacing;
    if Ready(l) && Untouched(t, l, earlier.govAuthority) {
      ReplaceFits(t, l, token, previous, forced, earlier.uuts, earlier.govAuthority);
    }
    var burned := if forced then multiset{} else multiset{previous};
    MintAndBurn(tcx, multiset{token} + earlier.uuts, burned, t);
    ghost var u := MintBurn(t, multiset{token} + earlier.uuts, burned);
    if !forced {
      var _ :- GrantAuthority(tcx, l, previous, true, false, u);
      u := Grant(u, l, previous, true);
    }
    Deposit(tcx, token, u);
    u := Give(u, token);
    var _ :- FinishWithGov(tcx, earlier.govAuthority, l, next, u);
    ReplacedAdds(t, l, token, previous, forced, earlier.uuts, earlier.govAuthority);
    r := Ok(());
  }

  /** The chain fits a builder that goes on with the caller's context in any case. */
  ghost predicate FitsHere(c: Ctx, hasGov: bool, l: Chain) {
    Ready(l) && Untouched(TallyOf(c), l, hasGov) && c.isFacade != IsFacade
  }

  ghost predicate SeedFitsHere(c: Ctx, l: Chain, seed: TxOutputId) {
    KeepsContext(c) || (ReadySeed(l, seed) && seed !in TallyOf(c).spent)
  }

  /** The seed added, if there was none, and what that leaves to be shown. */
  lemma SeededHere(c: Ctx, hasGov: bool, l: Chain, seed: TxOutputId)
    requires FitsHere(c, hasGov, l) && SeedFitsHere(c, l, seed)
    ensures Untouched(if KeepsContext(c) then TallyOf(c) else Seeded(TallyOf(c), seed), l, hasGov)
  {
    hide Untouched, TallyOf, Ready, ReadySeed;
    if !KeepsContext(c) {
      SeededUntouched(TallyOf(c), l, hasGov, seed);
    }
  }

  /** `mkTxnUpdatingMintDelegate`. */
  method MkTxnUpdatingMintDelegate(tcx: Context, earlier: Earlier, l: Chain, h: SeedHash, forced: bool,
                                   scriptHash: Option<string>, config: string, seed: TxOutputId)
    returns (r: Result<(), TxError>)
    requires Sound(tcx.View())
    modifies tcx
    ensures var c := old(tcx.View());
            var e := UpdateMintDelegate(h, l.charter, forced, scriptHash, config, SeedFor(c, seed));
            && (r.Ok? ==> CarriesOut(l, c, tcx.View(), e, {seed}, {}, earlier.uuts, 3))
            && (FitsHere(c, earlier.govAuthority, l) && SeedFitsHere(c, l, seed) ==> r.Ok?)
  {
    hide Ready, Untouched, Adds, Deposited, TallyOf, Sound;
    ghost var c := tcx.View();
    ghost var t := TallyOf(c);
    if FitsHere(c, earlier.govAuthority, l) && SeedFitsHere(c, l, seed) { SeededHere(c, earlier.govAuthority, l, seed); }
    var own :- AddSeed(tcx, seed, t);
    var token := UutNameOf(h, "mintDgt", own);
    ghost var u := if c.seed.Some? then t else Seeded(t, seed);
    var _ :- ReplaceTxn(tcx, earlier, l, token, l.charter.mintDelegateLink.uutName, forced,
                        l.charter.(mintDelegateLink := Link(token, scriptHash, config)), u);
    ghost var a := Replacing(token, l.charter.mintDelegateLink.uutName, forced, earlier.uuts, 3);
    SeededAdds(l, t, seed, u, TallyOf(tcx.View()), a);
    r := Ok(());
  }

  /** `mkTxnUpdatingSpendDelegate`. */
  method MkTxnUpdatingSpendDelegate(tcx: Context, earlier: Earlier, l: Chain, h: SeedHash, forced: bool,
                                    scriptHash: Option<string>, config: string, seed: TxOutputId)
    returns (r: Result<(), TxError>)
    requires Sound(tcx.View())
    modifies tcx
    ensures var c := old(tcx.View());
            var e := UpdateSpendDelegate(h, l.charter, forced, scriptHash, config, SeedFor(c, seed));
            && (r.Ok? ==> CarriesOut(l, c, tcx.View(), e, {seed}, {}, earlier.uuts, 3))
            && (FitsHere(c, earlier.govAuthority, l) && SeedFitsHere(c, l, seed) ==> r.Ok?)
  {
    hide Ready, Untouched, Adds, Deposited, TallyOf, Sound;
    ghost var c := tcx.View();
    ghost var t := TallyOf(c);
    if FitsHere(c, earlier.govAuthority, l) && SeedFitsHere(c, l, seed) { SeededHere(c, earlier.govAuthority, l, seed); }
    var own :- AddSeed(tcx, seed, t);
    var token := UutNameOf(h, "spendDgt", own);
    ghost var u := if c.seed.Some? then t else Seeded(t, seed);
    var _ :- ReplaceTxn(tcx, earlier, l, token, l.charter.spendDelegateLink.uutName, forced,
                        l.charter.(spendDelegateLink := Link(token, scriptHash, config)), u);
    ghost var a := Replacing(token, l.charter.spendDelegateLink.uutName, forced, earlier.uuts, 3);
    SeededAdds(l, t, seed, u, TallyOf(tcx.View()), a);
    r := Ok(());
  }

  // ----- a new context -----

  /** A new context that has been seeded. */
  ghost predicate IsOwn(c: Ctx, seed: TxOutputId) {
    Sound(c) && c.seed == Some(Utxo(seed, multiset{})) && TallyOf(c) == Seeded(TallyOf(EMPTY), seed) && c.outputs == []
  }

  lemma OwnSeed(seed: TxOutputId)
    ensures IsOwn(WithSeed(EMPTY, None, Utxo(seed, multiset{}), true).ctx, seed)
  {
    TokensInSnoc([], Utxo(seed, multiset{}));
    SeedKeepsSound(EMPTY, None, Utxo(seed, multiset{}), true);
  }

  lemma OwnContextFits(c: Ctx, l: Chain, seed: TxOutputId)
    requires IsOwn(c, seed) && Ready(l) && ReadySeed(l, seed)
    ensures Fits(c, NOTHING_EARLIER, l, seed)
  {
    hide Untouched, TallyOf, Ready, ReadySeed, Sound;
    EmptyUntouched(l);
    SeededUntouched(TallyOf(EMPTY), l, false, seed);
  }

  lemma OwnContextCarries(l: Chain, c: Ctx, d: Ctx, e: Effect, seed: TxOutputId, outputs: nat)
    requires IsOwn(c, seed) && CarriesOut(l, c, d, e, {seed}, {}, multiset{}, outputs)
    ensures CarriesOut(l, EMPTY, d, e, {seed}, {}, multiset{}, outputs)
  {
    SeededAdds(l, TallyOf(EMPTY), seed, TallyOf(c), TallyOf(d), Added(e.minted, e.burned, multiset{}, {seed}, {}, outputs));
  }

  // ----- a manifest entry -----

  lemma EntryFits(t: Tally, l: Chain, hasGov: bool)
    requires Ready(l) && Untouched(t, l, hasGov)
    ensures hasGov || Grantable(t, l, l.charter.govAuthorityLink.uutName)
    ensures Grantable(WithGov(t, l, hasGov), l, l.charter.spendDelegateLink.uutName)
    ensures l.charterId !in Grant(WithGov(t, l, hasGov), l, l.charter.spendDelegateLink.uutName, false).spent
  {
    hide Ready, Tokens, Grantable;
    RolesApart(l);
    var gov, spend := l.charter.govAuthorityLink.uutName, l.charter.spendDelegateLink.uutName;
    HeldApart(l, gov, spend);
    HeldApart(l, spend, gov);
    if !hasGov { GrantLeaves(t, l, gov, false, spend); }
  }

  /** `mkTxnAddManifestEntry`, with the utxo that the entry refers to. */
  method MkTxnAddManifestEntry(tcx: Context, hasGov: bool, l: Chain, key: string, utxo: Utxo, entry: ManifestEntry)
    returns (r: Result<(), TxError>)
    modifies tcx
    ensures var c := old(tcx.View());
            var e := AddManifestEntry(l.charter, key, entry);
            && (r.Ok? ==> e.Ok? && CarriesOut(l, c, tcx.View(), e.value, {}, {utxo.id}, multiset{}, 3))
            && (FitsHere(c, hasGov, l) ==> (r.Ok? <==> e.Ok?))
  {
    hide Ready, Untouched, Grantable, TallyOf, Adds, Deposited;
    ghost var c := tcx.View();
    ghost var t := TallyOf(c);
    var spend := l.charter.spendDelegateLink.uutName;
    if FitsHere(c, hasGov, l) { EntryFits(t, l, hasGov); }
    if !entry.entryType.NamedTokenRef? {
      return Err(Rejected(UnsupportedEntryType));
    }
    var gov := l.charter.govAuthorityLink.uutName;
    var _ :- AddGov(tcx, hasGov, l, t);
    if !hasGov { GrantableIsHeld(t, l, gov); }
    ghost var u := WithGov(t, l, hasGov);
    var _ :- Refer(tcx, utxo, u);
    ReferringFrees(u, l, utxo.id);
    u := Referring(u, utxo.id);
    var _ :- GrantAuthority(tcx, l, spend, false, false, u);
    GrantableIsHeld(u, l, spend);
    ghost var v := Grant(u, l, spend, false);
    var next := l.charter.(manifest := FromEntries(l.charter.manifest + [(key, entry)]));
    var _ :- UpdateCharter(tcx, l, next, v);
    NothingAdded(l, t);
    if hasGov { AtMost(l, t, t, Passing(0), Passing(1)); } else { PassedOnAdds(l, t, t, gov, l.at[gov], Passing(0)); }
    ReferredAdds(l, t, WithGov(t, l, hasGov), utxo.id, Passing(1));
    PassedOnAdds(l, t, u, spend, l.at[spend], Passing(1).(refs := {utxo.id}));
    PassedOnAdds(l, t, v, CHARTER, l.charterId, Passing(2).(refs := {utxo.id}));
    r := Ok(());
  }

  /** A reference input moves no token. */
  method Refer(tcx: Context, utxo: Utxo, ghost t: Tally) returns (r: Result<(), TxError>)
    requires TallyOf(tcx.View()) == t
    modifies tcx
    ensures r.Ok? <==> old(tcx.isFacade) != IsFacade
    ensures r.Ok? ==> Holds(tcx.View(), Referring(t, utxo.id))
  {
    HasIdIsMember(tcx.txRefInputs, utxo.id);
    HasIdIsMember(tcx.inputs, utxo.id);
    IdsOfSnoc(tcx.txRefInputs, utxo);
    var threw := tcx.Refer(utxo);
    r := if threw then Err(Refused) else Ok(());
  }

  /** Tokens only pass through. */
  function Passing(outputs: nat): Added {
    Added(multiset{}, multiset{}, multiset{}, {}, {}, outputs)
  }

  lemma ReferredAdds(l: Chain, t0: Tally, t: Tally, id: TxOutputId, a: Added)
    requires Adds(l, t0, t, a)
    ensures Adds(l, t0, Referring(t, id), a.(refs := a.refs + {id}))
    ensures id == l.charterId ==> Adds(l, t0, Referring(t, id), a)
  {
  }

  lemma ReferringFrees(t: Tally, l: Chain, id: TxOutputId)
    ensures forall x :: Grantable(Referring(t, id), l, x) <==> Grantable(t, l, x)
    ensures PoliciesFree(Referring(t, id), l) <==> PoliciesFree(t, l)
  {
    hide PolicyTokens;
  }

  lemma NothingAdded(l: Chain, t: Tally)
    ensures Adds(l, t, t, Passing(0))
  {
  }

  // ----- committing -----

  /** The loop over the pending changes. */
  method CollectEntries(pending: seq<PendingChange>, manifest: Entries<ManifestEntry>)
    returns (r: Result<Collected, Error>)
    ensures r == Collect(pending, manifest, Collected([], false))
  {
    var newManifestEntries: Entries<ManifestEntry> := [];
    var isReplacing := false;
    var todo := pending;
    while todo != []
      invariant Collect(pending, manifest, Collected([], false))
                == Collect(todo, manifest, Collected(newManifestEntries, isReplacing))
      decreases |todo|
    {
      var e := EntryFor(todo[0], manifest);
      if e.Err? {
        return Err(e.error);
      }
      newManifestEntries := Put(newManifestEntries, e.value.0, e.value.1);
      isReplacing := isReplacing || e.value.2;
      todo := todo[1..];
    }
    r := Ok(Collected(newManifestEntries, isReplacing));
  }

  /** The tokens are taken in and not returned. */
  function Retire(t: Tally, l: Chain, tokens: seq<string>): Tally {
    var ids := set x <- tokens | x in l.at :: l.at[x];
    t.(taken := t.taken + multiset(tokens), spent := t.spent + ids, seen := t.seen + ids)
  }

  /** Each policy's token can still be granted, once. */
  ghost predicate PoliciesFree(t: Tally, l: Chain) {
    && (forall x <- PolicyTokens(l.charter.manifest) :: Grantable(t, l, x) && PolicyTokens(l.charter.manifest)[x] == 1)
    && (forall x, y :: x in l.at && y in l.at && l.at[x] == l.at[y] ==> x == y)
  }

  /** Of the manifest `m`, the entries `todo` are left: those before have put `toBurn` on the burn
      list, and of these `granted` have been granted. */
  ghost predicate RetiredSoFar(m: Entries<ManifestEntry>, todo: Entries<ManifestEntry>, news: Entries<ManifestEntry>,
                               toBurn: seq<string>, granted: seq<string>) {
    && Replaced(m, news) == (match Replaced(todo, news) case Ok(more) => Ok(toBurn + more) case Err(e) => Err(e))
    && (TakesOverPolicies(m, news) ==> granted == toBurn && TakesOverPolicies(todo, news))
    && (OwnPolicies(m) ==> OwnPolicies(todo))
    && multiset(granted) + PolicyTokens(todo) <= PolicyTokens(m)
  }

  lemma RetireMore(t: Tally, l: Chain, granted: seq<string>, x: string)
    requires x in l.at
    ensures Grant(Retire(t, l, granted), l, x, true) == Retire(t, l, granted + [x])
  {
    var a := Grant(Retire(t, l, granted), l, x, true);
    var b := Retire(t, l, granted + [x]);
    assert multiset(granted + [x]) == multiset(granted) + multiset{x};
    assert a.taken == b.taken;
    assert a.spent == b.spent;
  }

  lemma RetirableNext(t: Tally, l: Chain, todo: Entries<ManifestEntry>, granted: seq<string>)
    requires PoliciesFree(t, l) && todo != [] && IsPolicy(todo[0].1)
    requires multiset(granted) + PolicyTokens(todo) <= PolicyTokens(l.charter.manifest)
    ensures Grantable(Retire(t, l, granted), l, todo[0].1.tokenName)
  {
    var x := todo[0].1.tokenName;
    var all := PolicyTokens(l.charter.manifest);
    assert x in PolicyTokens(todo);
    assert (multiset(granted) + PolicyTokens(todo))[x] <= all[x];
    assert x in all && x !in granted;
    assert forall y :: y in granted && y in l.at ==> l.at[y] != l.at[x];
  }

  lemma RetiredNothing(m: Entries<ManifestEntry>, news: Entries<ManifestEntry>)
    ensures RetiredSoFar(m, m, news, [], [])
  {
    var none: seq<string> := [];
    assert multiset(none) + PolicyTokens(m) == PolicyTokens(m);
    assert Replaced(m, news).Ok? ==> [] + Replaced(m, news).value == Replaced(m, news).value;
  }

  lemma RetiredAll(m: Entries<ManifestEntry>, news: Entries<ManifestEntry>, toBurn: seq<string>, granted: seq<string>)
    requires RetiredSoFar(m, [], news, toBurn, granted)
    ensures Replaced(m, news) == Ok(toBurn)
  {
    assert toBurn + [] == toBurn;
  }

  lemma ChecksOfRest(todo: Entries<ManifestEntry>, news: Entries<ManifestEntry>)
    requires todo != []
    ensures OwnPolicies(todo) ==> OwnPolicies(todo[1..])
    ensures TakesOverPolicies(todo, news) ==>
              TakesOverPolicies(todo[1..], news) && (Has(news, todo[0].0) ==> IsPolicy(todo[0].1))
  {
  }

  lemma WithinAll(granted: seq<string>, x: string, own: multiset<string>, rest: multiset<string>, all: multiset<string>)
    requires multiset(granted) + (own + rest) <= all
    ensures multiset(granted) + rest <= all
    ensures own == multiset{x} ==> multiset(granted + [x]) + rest <= all
  {
    assert multiset(granted + [x]) == multiset(granted) + multiset{x};
  }

  lemma RetiredOneMore(m: Entries<ManifestEntry>, todo: Entries<ManifestEntry>, news: Entries<ManifestEntry>,
                       toBurn: seq<string>, granted: seq<string>)
    requires RetiredSoFar(m, todo, news, toBurn, granted) && todo != []
    ensures !Has(news, todo[0].0) ==> RetiredSoFar(m, todo[1..], news, toBurn, granted)
    ensures var e := todo[0].1;
            Has(news, todo[0].0) && !(e.mph.Some? && e.mph.value.OtherPolicy?) ==>
              RetiredSoFar(m, todo[1..], news, toBurn + [e.tokenName], if IsPolicy(e) then granted + [e.tokenName] else granted)
  {
    ChecksOfRest(todo, news);
    hide TakesOverPolicies, OwnPolicies, Has;
    var x := todo[0].1.tokenName;
    WithinAll(granted, x, if IsPolicy(todo[0].1) then multiset{x} else multiset{}, PolicyTokens(todo[1..]), PolicyTokens(m));
    var rest := Replaced(todo[1..], news);
    assert rest.Ok? ==> toBurn + ([x] + rest.value) == (toBurn + [x]) + rest.value;
  }

  /** Whose tokens a commit retires, one policy at a time. */
  method RetireReplaced(tcx: Context, l: Chain, news: Entries<ManifestEntry>, ghost t: Tally)
    returns (r: Result<seq<string>, TxError>, ghost granted: seq<string>)
    requires Holds(tcx.View(), t)
    modifies tcx
    ensures r.Ok? ==> Replaced(l.charter.manifest, news) == Ok(r.value) && Holds(tcx.View(), Retire(t, l, granted))
    ensures r.Ok? && TakesOverPolicies(l.charter.manifest, news) ==> granted == r.value
    ensures PoliciesFree(t, l) && OwnPolicies(l.charter.manifest) && TakesOverPolicies(l.charter.manifest, news) ==> r.Ok?
  {
    hide TallyOf, PoliciesFree, Grantable;
    var m := l.charter.manifest;
    var todo, toBurn := m, [];
    granted := [];
    RetiredNothing(m, news);
    assert Retire(t, l, []) == t;
    while todo != []
      invariant RetiredSoFar(m, todo, news, toBurn, granted)
      invariant Holds(tcx.View(), Retire(t, l, granted))
      decreases |todo|
    {
      RetiredOneMore(m, todo, news, toBurn, granted);
      var entry := todo[0].1;
      if Has(news, todo[0].0) {
        if entry.mph.Some? && entry.mph.value.OtherPolicy? {
          return Err(Rejected(ForeignMintingPolicy)), granted;
        }
        if IsPolicy(entry) {
          var x := entry.tokenName;
          if PoliciesFree(t, l) { RetirableNext(t, l, todo, granted); }
          var granting := GrantAuthority(tcx, l, x, true, false, Retire(t, l, granted));
          if granting.Err? {
            return Err(granting.error), granted;
          }
          GrantableIsHeld(Retire(t, l, granted), l, x);
          RetireMore(t, l, granted, x);
          granted := granted + [x];
        }
        toBurn := toBurn + [entry.tokenName];
      }
      todo := todo[1..];
    }
    RetiredAll(m, news, toBurn, granted);
    r := Ok(toBurn);
  }

  lemma GoodCommit(c: Charter)
    requires GoodCharter(c)
    ensures var collected := Collect(c.pendingChanges, c.manifest, Collected([], false));
            collected.Ok? && TakesOverPolicies(c.manifest, collected.value.entries) && OwnPolicies(c.manifest)
  {
    NewEntriesDistinct(c.pendingChanges, c.manifest);
    assert [] + NewEntries(c.pendingChanges, c.manifest) == NewEntries(c.pendingChanges, c.manifest);
    CollectIsNewEntries(c.pendingChanges, c.manifest, Collected([], false));
    CommittableTakesOverPolicies(c);
  }

  lemma PolicyApart(l: Chain, x: string)
    requires Ready(l) && x in PolicyTokens(l.charter.manifest)
    ensures x in l.at && x in Tokens(l.charter) && PolicyTokens(l.charter.manifest)[x] == 1
    ensures x != l.charter.govAuthorityLink.uutName && x != l.charter.mintDelegateLink.uutName
    ensures x != l.charter.spendDelegateLink.uutName
  {
    RolesApart(l);
    assert PolicyTokens(l.charter.manifest)[x] <= OtherTokens(l.charter)[x] <= Tokens(l.charter)[x];
    assert x in Tokens(l.charter) && x in OtherTokens(l.charter);
  }

  /** The spend and governance tokens, both returned. */
  function Opened(t: Tally, l: Chain, hasGov: bool): Tally
    requires l.charter.spendDelegateLink.uutName in l.at && (hasGov || l.charter.govAuthorityLink.uutName in l.at)
  {
    WithGov(Grant(t, l, l.charter.spendDelegateLink.uutName, false), l, hasGov)
  }

  /** Any other token is as free as before. */
  lemma OpenedLeaves(t: Tally, l: Chain, hasGov: bool, x: string)
    requires Ready(l) && Grantable(t, l, x) && x != l.charter.spendDelegateLink.uutName
    requires l.charter.spendDelegateLink.uutName in l.at && (hasGov || l.charter.govAuthorityLink.uutName in l.at)
    requires hasGov || x != l.charter.govAuthorityLink.uutName
    ensures Grantable(Opened(t, l, hasGov), l, x)
    ensures l.charterId !in t.spent ==> l.charterId !in Opened(t, l, hasGov).spent
  {
    hide Ready, Grantable;
    var spend := l.charter.spendDelegateLink.uutName;
    GrantLeaves(t, l, spend, false, x);
    if !hasGov { GrantLeaves(Grant(t, l, spend, false), l, l.charter.govAuthorityLink.uutName, false, x); }
  }

  lemma CommitOpens(t: Tally, l: Chain, hasGov: bool)
    requires Ready(l) && Untouched(t, l, hasGov)
    ensures var spend := l.charter.spendDelegateLink.uutName;
            var gov := l.charter.govAuthorityLink.uutName;
            Grantable(t, l, spend) && (hasGov || Grantable(Grant(t, l, spend, false), l, gov))
    ensures PoliciesFree(Opened(t, l, hasGov), l)
    ensures Grantable(Opened(t, l, hasGov), l, l.charter.mintDelegateLink.uutName)
    ensures l.charterId !in Opened(t, l, hasGov).spent
  {
    RolesApart(l);
    hide Tokens, PolicyTokens;
    var spend, gov := l.charter.spendDelegateLink.uutName, l.charter.govAuthorityLink.uutName;
    if !hasGov { GrantLeaves(t, l, spend, false, gov); }
    OpenedLeaves(t, l, hasGov, l.charter.mintDelegateLink.uutName);
    hide Opened;
    forall x <- PolicyTokens(l.charter.manifest)
      ensures Grantable(Opened(t, l, hasGov), l, x) && PolicyTokens(l.charter.manifest)[x] == 1
    {
      PolicyApart(l, x);
      OpenedLeaves(t, l, hasGov, x);
    }
  }

  /** After the policies' tokens, the mint delegate's token and the charter are still free. */
  lemma CommitContinues(t: Tally, l: Chain, tokens: seq<string>)
    requires Ready(l) && multiset(tokens) <= PolicyTokens(l.charter.manifest)
    requires Grantable(t, l, l.charter.mintDelegateLink.uutName) && l.charterId !in t.spent
    ensures var mint := l.charter.mintDelegateLink.uutName;
            var u := MintBurn(Retire(t, l, tokens), multiset{}, multiset(tokens));
            Grantable(u, l, mint) && l.charterId !in Grant(u, l, mint, false).spent
  {
    hide Ready, PolicyTokens;
    RolesApart(l);
    var mint := l.charter.mintDelegateLink.uutName;
    HeldApart(l, mint, l.charter.govAuthorityLink.uutName);
    forall x <- tokens ensures x in l.at && x != mint && l.at[x] != l.at[mint] && l.at[x] != l.charterId {
      assert x in multiset(tokens);
      PolicyApart(l, x);
      HeldApart(l, x, mint);
    }
  }

  /** What is retired is burned, and the mint delegate's token and the charter are passed on. */
  function Committed(t: Tally, l: Chain, tokens: seq<string>): Tally
    requires l.charter.mintDelegateLink.uutName in l.at
  {
    PassOn(Grant(MintBurn(Retire(t, l, tokens), multiset{}, multiset(tokens)), l, l.charter.mintDelegateLink.uutName, false),
           CHARTER, l.charterId)
  }

  lemma CommittedAdds(l: Chain, t0: Tally, t: Tally, tokens: seq<string>)
    requires l.charter.mintDelegateLink.uutName in l.at && Adds(l, t0, t, Passing(2))
    ensures Adds(l, t0, Committed(t, l, tokens), Added(multiset{}, multiset(tokens), multiset{}, {}, {}, 4))
  {
    var mint := l.charter.mintDelegateLink.uutName;
    var a := Added(multiset{}, multiset(tokens), multiset{}, {}, {}, 2);
    var u := MintBurn(Retire(t, l, tokens), multiset{}, multiset(tokens));
    RetiredAdds(l, t0, t, tokens);
    PassedOnAdds(l, t0, u, mint, l.at[mint], a);
    PassedOnAdds(l, t0, Grant(u, l, mint, false), CHARTER, l.charterId, a.(outputs := 3));
  }

  lemma RetiredAdds(l: Chain, t0: Tally, t: Tally, tokens: seq<string>)
    requires Adds(l, t0, t, Passing(2))
    ensures Adds(l, t0, MintBurn(Retire(t, l, tokens), multiset{}, multiset(tokens)),
                 Added(multiset{}, multiset(tokens), multiset{}, {}, {}, 2))
  {
    var u := MintBurn(Retire(t, l, tokens), multiset{}, multiset(tokens));
    forall k ensures (u.taken + multiset{} + t0.put)[k] == (u.put + multiset(tokens) + t0.taken)[k] {
      assert (t.taken + multiset{} + t0.put)[k] == (t.put + multiset{} + t0.taken)[k];
    }
    assert HeldAt(l, t.taken) <= HeldAt(l, u.taken);
    forall x <- tokens | x in l.at ensures l.at[x] in HeldAt(l, u.taken) {
      assert x in u.taken;
    }
  }

  lemma OpenedAdds(t: Tally, l: Chain, hasGov: bool)
    requires l.charter.spendDelegateLink.uutName in l.at && (hasGov || l.charter.govAuthorityLink.uutName in l.at)
    ensures Adds(l, t, Opened(t, l, hasGov), Passing(2))
  {
    hide Adds;
    var spend, gov := l.charter.spendDelegateLink.uutName, l.charter.govAuthorityLink.uutName;
    var u := Grant(t, l, spend, false);
    NothingAdded(l, t);
    PassedOnAdds(l, t, t, spend, l.at[spend], Passing(0));
    if hasGov { AtMost(l, t, u, Passing(1), Passing(2)); } else { PassedOnAdds(l, t, u, gov, l.at[gov], Passing(1)); }
  }

  lemma GrantableIsHeld(t: Tally, l: Chain, x: string)
    requires Grantable(t, l, x)
    ensures x in l.at && x !in t.taken
  {
  }

  /** `mkTxnCommittingPendingChanges`. */
  method MkTxnCommittingPendingChanges(tcx: Context, hasGov: bool, l: Chain) returns (r: Result<(), TxError>)
    modifies tcx
    ensures r.Ok? ==> Commit(l.charter).Ok?
    ensures var c := old(tcx.View());
            GoodCharter(l.charter) ==>
              && (r.Ok? ==> CarriesOut(l, c, tcx.View(), Commit(l.charter).value, {}, {}, multiset{}, 4))
              && (FitsHere(c, hasGov, l) ==> r.Ok?)
  {
    hide TallyOf, Ready, Untouched, Grantable, PoliciesFree, GoodCharter, Adds, Deposited;
    var c := l.charter;
    var spend := c.spendDelegateLink.uutName;
    ghost var begin := tcx.View();
    ghost var t := TallyOf(begin);
    if FitsHere(begin, hasGov, l) { CommitOpens(t, l, hasGov); }
    if GoodCharter(c) { GoodCommit(c); }
    var _ :- GrantAuthority(tcx, l, spend, false, false, t);
    GrantableIsHeld(t, l, spend);
    ghost var u := Grant(t, l, spend, false);
    var _ :- AddGov(tcx, hasGov, l, u);
    if !hasGov { GrantableIsHeld(u, l, c.govAuthorityLink.uutName); }
    u := Opened(t, l, hasGov);
    OpenedAdds(t, l, hasGov);
    var collected := CollectEntries(c.pendingChanges, c.manifest);
    if collected.Err? {
      return Err(Rejected(collected.error));
    }
    var next := c.(manifest := Updated(c.manifest, collected.value.entries), pendingChanges := []);
    if collected.value.replacing {
      r := CommitReplacing(tcx, l, collected.value.entries, next, t, u);
    } else {
      r := CommitAdding(tcx, l, next, t, u);
    }
  }

  lemma RetireNone(t: Tally, l: Chain)
    ensures MintBurn(Retire(t, l, []), multiset{}, multiset([])) == t
  {
  }

  /** Nothing is replaced: the mint delegate only witnesses the commit. */
  method CommitAdding(tcx: Context, l: Chain, next: Charter, ghost t0: Tally, ghost t: Tally) returns (r: Result<(), TxError>)
    requires Holds(tcx.View(), t) && Adds(l, t0, t, Passing(2))
    modifies tcx
    ensures r.Ok? ==> Adds(l, t0, TallyOf(tcx.View()), Passing(4)) && Deposited(tcx.View(), next)
    ensures Ready(l) && Grantable(t, l, l.charter.mintDelegateLink.uutName) && l.charterId !in t.spent ==> r.Ok?
  {
    hide TallyOf, Ready, Grantable, Adds, Deposited;
    var mint := l.charter.mintDelegateLink.uutName;
    if Ready(l) && Grantable(t, l, mint) && l.charterId !in t.spent { CommitContinues(t, l, []); }
    RetireNone(t, l);
    hide Retire, MintBurn;
    var _ :- GrantAuthority(tcx, l, mint, false, false, t);
    GrantableIsHeld(t, l, mint);
    var _ :- UpdateCharter(tcx, l, next, Grant(t, l, mint, false));
    PassedOnAdds(l, t0, t, mint, l.at[mint], Passing(2));
    PassedOnAdds(l, t0, Grant(t, l, mint, false), CHARTER, l.charterId, Passing(3));
    r := Ok(());
  }

  /** Something is replaced: every replaced policy grants its token, and all of them are burned. */
  method CommitReplacing(tcx: Context, l: Chain, news: Entries<ManifestEntry>, next: Charter, ghost t0: Tally, ghost t: Tally)
    returns (r: Result<(), TxError>)
    requires Holds(tcx.View(), t) && Adds(l, t0, t, Passing(2))
    modifies tcx
    ensures r.Ok? ==> Replaced(l.charter.manifest, news).Ok?
    ensures var m := l.charter.manifest;
            TakesOverPolicies(m, news) && OwnPolicies(m) ==>
              && (r.Ok? ==> Deposited(tcx.View(), next)
                            && Adds(l, t0, TallyOf(tcx.View()),
                                    Added(multiset{}, multiset(Replaced(m, news).value), multiset{}, {}, {}, 4)))
              && ((Ready(l) && PoliciesFree(t, l) && Grantable(t, l, l.charter.mintDelegateLink.uutName)
                   && l.charterId !in t.spent) ==> r.Ok?)
  {
    hide TallyOf, Ready, Grantable, PoliciesFree, Adds, Deposited;
    var mint := l.charter.mintDelegateLink.uutName;
    var referred := Refer(tcx, Utxo(l.charterId, multiset{CHARTER}), t);
    ReferringFrees(t, l, l.charterId);
    ReferredAdds(l, t0, t, l.charterId, Passing(2));
    ghost var t := Referring(t, l.charterId);
    var retired, granted := RetireReplaced(tcx, l, news, t);
    if retired.Err? {
      return Err(retired.error);
    }
    ghost var m := l.charter.manifest;
    if TakesOverPolicies(m, news) && OwnPolicies(m) {
      ReplacedTokens(m, news);
      if Ready(l) && Grantable(t, l, mint) && l.charterId !in t.spent { CommitContinues(t, l, granted); }
    }
    ghost var u := Retire(t, l, granted);
    MintAndBurn(tcx, multiset{}, multiset(retired.value), u);
    u := MintBurn(u, multiset{}, multiset(retired.value));
    var _ :- GrantAuthority(tcx, l, mint, false, false, u);
    GrantableIsHeld(u, l, mint);
    var _ :- UpdateCharter(tcx, l, next, Grant(u, l, mint, false));
    if granted == retired.value { CommittedAdds(l, t0, t, granted); }
    r := Ok(());
  }

  /** In every reachable state the charter's tokens are distinct, so a chain that holds each of
      them in a utxo of its own is ready, and every builder above succeeds exactly when its effect
      is defined. */
  lemma ReachableIsReady(h: SeedHash, st: State, l: Chain)
    requires Inv(h, st) && l.charter == st.charter
    requires forall t <- Tokens(st.charter) :: t in l.at
    requires forall s, t :: s in l.at && t in l.at && l.at[s] == l.at[t] ==> s == t
    requires l.charterId !in l.at.Values
    ensures Ready(l)
  {
    forall t <- Tokens(st.charter) ensures Tokens(st.charter)[t] == 1 {
      assert st.minted[t] == (st.burned + Tokens(st.charter) + st.stranded)[t];
      assert t in st.minted;
    }
  }
}
