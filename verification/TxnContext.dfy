/**
 * The transaction context: what a builder adds to one transaction. Each operation is a function
 * of the whole context, since a throwing operation may already have changed part of it, and a
 * method of the class that changes its fields the same way.
 */
module TxnContext {
  import opened Wrappers
  import opened CharterModel

  /** A utxo, as far as authority tokens go. */
  datatype Utxo = Utxo(id: TxOutputId, tokens: multiset<string>)

  /** An output, with the charter record when it carries the charter token. */
  datatype Output = Output(tokens: multiset<string>, datum: Option<Charter>)

  /** `isFacade`: undefined until the context is used one way or the other. */
  datatype FacadeFlag = Undecided | IsFacade | NotFacade

  datatype Ctx = Ctx(
    isFacade: FacadeFlag,
    inputs: seq<Utxo>,
    traces: set<TxOutputId>,
    outputs: seq<Output>,
    refs: seq<Utxo>,
    builderRefs: seq<Utxo>,
    minted: multiset<string>,
    burned: multiset<string>,
    seed: Option<Utxo>,
    addlTxns: seq<string>)

  /** The context after an operation, and whether the operation threw. */
  datatype Outcome = Outcome(ctx: Ctx, threw: bool)

  const EMPTY := Ctx(Undecided, [], {}, [], [], [], multiset{}, multiset{}, None, [])

  /** `find` with `isEqual` on the id. */
  predicate HasId(us: seq<Utxo>, id: TxOutputId) {
    us != [] && (us[0].id == id || HasId(us[1..], id))
  }

  /** `filter` that drops an id. */
  function WithoutId(us: seq<Utxo>, id: TxOutputId): seq<Utxo> {
    if us == [] then []
    else if us[0].id == id then WithoutId(us[1..], id)
    else [us[0]] + WithoutId(us[1..], id)
  }

  // ----- the operations -----

  function Facade(c: Ctx): Outcome {
    if c.isFacade == NotFacade then Outcome(c, true) else Outcome(c.(isFacade := IsFacade), false)
  }

  /** Every material operation begins here, and so settles the flag even if it throws later. */
  function NoFacade(c: Ctx): Outcome {
    if c.isFacade == IsFacade then Outcome(c, true) else Outcome(c.(isFacade := NotFacade), false)
  }

  function IncludeAddlTxn(c: Ctx, name: string): Outcome {
    if c.isFacade.Undecided? || name in c.addlTxns then Outcome(c, true)
    else Outcome(c.(addlTxns := c.addlTxns + [name]), false)
  }

  /** `addInput`: the underlying builder may still refuse an input that is already recorded. */
  function AddInput(c: Ctx, u: Utxo, redeemerOk: bool, accepted: bool): Outcome {
    var o := NoFacade(c);
    if o.threw || !redeemerOk || u.id in c.traces then o.(threw := true)
    else Outcome(o.ctx.(traces := c.traces + {u.id}, inputs := c.inputs + [u]), !accepted)
  }

  /** `addRefInput`: idempotent, and suppressed for something already spent. */
  function AddRefInput(c: Ctx, u: Utxo): Outcome {
    var o := NoFacade(c);
    if o.threw || HasId(c.refs, u.id) || HasId(c.inputs, u.id) then o
    else Outcome(o.ctx.(refs := c.refs + [u], builderRefs := c.builderRefs + [u]), false)
  }

  function AddOutput(c: Ctx, out: Output, accepted: bool): Outcome {
    var o := NoFacade(c);
    if o.threw || !accepted then o.(threw := true)
    else Outcome(o.ctx.(outputs := c.outputs + [out]), false)
  }

  function MintTokens(c: Ctx, minted: multiset<string>, burned: multiset<string>): Outcome {
    var o := NoFacade(c);
    if o.threw then o
    else Outcome(o.ctx.(minted := c.minted + minted, burned := c.burned + burned), false)
  }

  /** `tcxWithSeedUtxo`: keeps a seed it has; a given seed that is already spent is adopted. */
  function WithSeed(c: Ctx, given: Option<Utxo>, found: Utxo, accepted: bool): Outcome {
    if c.seed.Some? then Outcome(c, false)
    else if given.Some? && HasId(c.inputs, given.value.id) then Outcome(c.(seed := given), false)
    else
      var u := if given.Some? then given.value else found;
      var o := AddInput(c, u, true, accepted);
      if o.threw then o else Outcome(o.ctx.(seed := Some(u)), false)
  }

  /** `txnAttachScriptOrRefScript`, by reference when the script is on chain. */
  function AttachScript(c: Ctx, scriptRef: Option<Utxo>): Outcome {
    if scriptRef.Some? then AddRefInput(c, scriptRef.value) else NoFacade(c)
  }

  /** `txnMustUseCharterUtxo`, spending: the charter stops being a reference of the builder. */
  function UseCharter(c: Ctx, scriptRef: Option<Utxo>, charter: Utxo, out: Output, accepted: bool): Outcome {
    var o := AttachScript(c, scriptRef);
    if o.threw then o
    else
      var o1 := AddInput(o.ctx.(builderRefs := WithoutId(o.ctx.builderRefs, charter.id)), charter, true, accepted);
      if o1.threw then o1 else AddOutput(o1.ctx, out, true)
  }

  datatype Op =
    | OpFacade
    | OpInclude(name: string)
    | OpInput(u: Utxo, redeemerOk: bool, accepted: bool)
    | OpRef(u: Utxo)
    | OpOutput(out: Output, accepted: bool)
    | OpMint(minted: multiset<string>, burned: multiset<string>)
    | OpSeed(given: Option<Utxo>, found: Utxo, accepted: bool)
    | OpCharter(scriptRef: Option<Utxo>, u: Utxo, out: Output, accepted: bool)

  function Do(c: Ctx, op: Op): Outcome {
    match op
    case OpFacade => Facade(c)
    case OpInclude(name) => IncludeAddlTxn(c, name)
    case OpInput(u, redeemerOk, accepted) => AddInput(c, u, redeemerOk, accepted)
    case OpRef(u) => AddRefInput(c, u)
    case OpOutput(out, accepted) => AddOutput(c, out, accepted)
    case OpMint(minted, burned) => MintTokens(c, minted, burned)
    case OpSeed(given, found, accepted) => WithSeed(c, given, found, accepted)
    case OpCharter(scriptRef, u, out, accepted) => UseCharter(c, scriptRef, u, out, accepted)
  }

  /** A run of operations in which any of them may throw and be caught. */
  function Run(c: Ctx, ops: seq<Op>): Ctx
    decreases |ops|
  {
    if ops == [] then c else Run(Do(c, ops[0]).ctx, ops[1..])
  }

  // ----- what every run keeps -----

  predicate DistinctIds(us: seq<Utxo>) {
    us != [] ==> !HasId(us[1..], us[0].id) && DistinctIds(us[1..])
  }

  function IdsOf(us: seq<Utxo>): set<TxOutputId> {
    if us == [] then {} else {us[0].id} + IdsOf(us[1..])
  }

  predicate NoMaterial(c: Ctx) {
    c.inputs == [] && c.outputs == [] && c.refs == [] && c.builderRefs == []
    && c.minted == multiset{} && c.burned == multiset{} && c.seed.None?
  }

  ghost predicate Sound(c: Ctx) {
    && DistinctIds(c.inputs) && c.traces == IdsOf(c.inputs)
    && DistinctIds(c.refs) && IdsOf(c.builderRefs) <= IdsOf(c.refs)
    && (c.isFacade != NotFacade ==> NoMaterial(c))
    && (c.seed.Some? ==> HasId(c.inputs, c.seed.value.id))
    && (forall i, j :: 0 <= i < j < |c.addlTxns| ==> c.addlTxns[i] != c.addlTxns[j])
    && (c.isFacade.Undecided? ==> c.addlTxns == [])
  }

  lemma {:induction false} HasIdOfSnoc(us: seq<Utxo>, u: Utxo, id: TxOutputId)
    ensures HasId(us + [u], id) <==> HasId(us, id) || u.id == id
  {
    if us != [] {
      assert (us + [u])[1..] == us[1..] + [u];
      HasIdOfSnoc(us[1..], u, id);
    }
  }

  lemma {:induction false} IdsOfSnoc(us: seq<Utxo>, u: Utxo)
    ensures IdsOf(us + [u]) == IdsOf(us) + {u.id}
  {
    if us != [] {
      assert (us + [u])[1..] == us[1..] + [u];
      IdsOfSnoc(us[1..], u);
    }
  }

  lemma {:induction false} DistinctSnoc(us: seq<Utxo>, u: Utxo)
    requires DistinctIds(us) && !HasId(us, u.id)
    ensures DistinctIds(us + [u])
  {
    if us != [] {
      assert (us + [u])[1..] == us[1..] + [u];
      HasIdOfSnoc(us[1..], u, us[0].id);
      DistinctSnoc(us[1..], u);
    }
  }

  lemma {:induction false} HasIdIsMember(us: seq<Utxo>, id: TxOutputId)
    ensures HasId(us, id) <==> id in IdsOf(us)
  {
    if us != [] {
      HasIdIsMember(us[1..], id);
    }
  }

  lemma {:induction false} WithoutIdDrops(us: seq<Utxo>, id: TxOutputId)
    ensures IdsOf(WithoutId(us, id)) == IdsOf(us) - {id}
  {
    if us != [] {
      WithoutIdDrops(us[1..], id);
      assert us[0].id != id ==> WithoutId(us, id)[1..] == WithoutId(us[1..], id);
    }
  }

  lemma InputKeepsSound(c: Ctx, u: Utxo, redeemerOk: bool, accepted: bool)
    requires Sound(c)
    ensures Sound(AddInput(c, u, redeemerOk, accepted).ctx)
  {
    IdsOfSnoc(c.inputs, u);
    HasIdIsMember(c.inputs, u.id);
    if !HasId(c.inputs, u.id) { DistinctSnoc(c.inputs, u); }
    if c.seed.Some? { HasIdOfSnoc(c.inputs, u, c.seed.value.id); }
  }

  lemma RefKeepsSound(c: Ctx, u: Utxo)
    requires Sound(c)
    ensures Sound(AddRefInput(c, u).ctx)
  {
    IdsOfSnoc(c.refs, u);
    IdsOfSnoc(c.builderRefs, u);
    if !HasId(c.refs, u.id) { DistinctSnoc(c.refs, u); }
  }

  lemma SeedKeepsSound(c: Ctx, given: Option<Utxo>, found: Utxo, accepted: bool)
    requires Sound(c)
    ensures Sound(WithSeed(c, given, found, accepted).ctx)
  {
    var u := if given.Some? then given.value else found;
    InputKeepsSound(c, u, true, accepted);
    HasIdOfSnoc(c.inputs, u, u.id);
  }

  lemma CharterKeepsSound(c: Ctx, scriptRef: Option<Utxo>, u: Utxo, out: Output, accepted: bool)
    requires Sound(c)
    ensures Sound(UseCharter(c, scriptRef, u, out, accepted).ctx)
  {
    if scriptRef.Some? { RefKeepsSound(c, scriptRef.value); }
    var o := AttachScript(c, scriptRef);
    assert Sound(o.ctx);
    hide AttachScript;
    WithoutIdDrops(o.ctx.builderRefs, u.id);
    InputKeepsSound(o.ctx.(builderRefs := WithoutId(o.ctx.builderRefs, u.id)), u, true, accepted);
  }

  lemma DoKeepsSound(c: Ctx, op: Op)
    requires Sound(c)
    ensures Sound(Do(c, op).ctx)
  {
    hide AddInput, AddRefInput, WithSeed, UseCharter;
    match op
    case OpInput(u, redeemerOk, accepted) => InputKeepsSound(c, u, redeemerOk, accepted);
    case OpRef(u) => RefKeepsSound(c, u);
    case OpSeed(given, found, accepted) => SeedKeepsSound(c, given, found, accepted);
    case OpCharter(scriptRef, u, out, accepted) => CharterKeepsSound(c, scriptRef, u, out, accepted);
    case _ =>
  }

  /** Main result: after any operations, thrown or not: inputs are distinct and are the stack-trace
      keys, reference inputs are distinct, the builder refers to nothing else, a facade (or a
      context not yet decided) holds nothing, the seed is an input, and nested transactions have
      distinct names. */
  lemma {:induction false} RunKeepsSound(c: Ctx, ops: seq<Op>)
    requires Sound(c)
    ensures Sound(Run(c, ops))
    decreases |ops|
  {
    hide Sound, Do;
    if ops != [] {
      DoKeepsSound(c, ops[0]);
      RunKeepsSound(Do(c, ops[0]).ctx, ops[1..]);
    }
  }

  /** In particular after any operations on a new context. */
  lemma NewContextIsSound(ops: seq<Op>)
    ensures Sound(Run(EMPTY, ops))
  {
    RunKeepsSound(EMPTY, ops);
  }

  /** What one operation never undoes. */
  predicate Extends(c: Ctx, d: Ctx) {
    && (!c.isFacade.Undecided? ==> d.isFacade == c.isFacade)
    && (c.seed.Some? ==> d.seed == c.seed)
    && c.inputs <= d.inputs && c.outputs <= d.outputs && c.refs <= d.refs && c.addlTxns <= d.addlTxns
    && c.traces <= d.traces && c.minted <= d.minted && c.burned <= d.burned
  }

  lemma ExtendsTransitive(a: Ctx, b: Ctx, c: Ctx)
    requires Extends(a, b) && Extends(b, c)
    ensures Extends(a, c)
  {
  }

  lemma DoExtends(c: Ctx, op: Op)
    ensures Extends(c, Do(c, op).ctx)
  {
    hide Extends;
    match op
    case OpSeed(given, found, accepted) =>
      assert Extends(c, WithSeed(c, given, found, accepted).ctx) by { SeedExtends(c, given, found, accepted); }
    case OpCharter(scriptRef, u, out, accepted) => CharterExtends(c, scriptRef, u, out, accepted);
    case OpMint(minted, burned) => MintExtends(c, minted, burned);
    case OpRef(u) => RefExtends(c, u);
    case _ => PlainExtends(c, op);
  }

  lemma RefExtends(c: Ctx, u: Utxo)
    ensures Extends(c, AddRefInput(c, u).ctx)
  {
  }

  lemma MintExtends(c: Ctx, minted: multiset<string>, burned: multiset<string>)
    ensures Extends(c, MintTokens(c, minted, burned).ctx)
  {
  }

  lemma InputExtends(c: Ctx, u: Utxo, redeemerOk: bool, accepted: bool)
    ensures Extends(c, AddInput(c, u, redeemerOk, accepted).ctx)
  {
  }

  lemma PlainExtends(c: Ctx, op: Op)
    requires op.OpFacade? || op.OpInclude? || op.OpInput? || op.OpOutput?
    ensures Extends(c, Do(c, op).ctx)
  {
  }

  lemma SeedExtends(c: Ctx, given: Option<Utxo>, found: Utxo, accepted: bool)
    ensures Extends(c, WithSeed(c, given, found, accepted).ctx)
  {
    hide AddInput;
    InputExtends(c, if given.Some? then given.value else found, true, accepted);
  }

  lemma CharterExtends(c: Ctx, scriptRef: Option<Utxo>, u: Utxo, out: Output, accepted: bool)
    ensures Extends(c, UseCharter(c, scriptRef, u, out, accepted).ctx)
  {
    hide AddInput, AddOutput, AddRefInput;
    if scriptRef.Some? { RefExtends(c, scriptRef.value); }
    var o := AttachScript(c, scriptRef);
    var c1 := o.ctx.(builderRefs := WithoutId(o.ctx.builderRefs, u.id));
    InputExtends(c1, u, true, accepted);
    var o1 := AddInput(c1, u, true, accepted);
    assert Extends(o1.ctx, AddOutput(o1.ctx, out, true).ctx) by { PlainExtends(o1.ctx, OpOutput(out, true)); }
  }

  /** Main result: the facade flag never flips once set, the first seed stays, nothing is withdrawn. */
  lemma {:induction false} RunExtends(c: Ctx, ops: seq<Op>)
    ensures Extends(c, Run(c, ops))
    decreases |ops|
  {
    if ops == [] {
    } else {
      hide Do, Extends;
      DoExtends(c, ops[0]);
      RunExtends(Do(c, ops[0]).ctx, ops[1..]);
      ExtendsTransitive(c, Do(c, ops[0]).ctx, Run(Do(c, ops[0]).ctx, ops[1..]));
    }
  }

  /** The operation spends this utxo as the charter. */
  predicate SpendsCharter(op: Op, id: TxOutputId) {
    op.OpCharter? && op.u.id == id
  }

  lemma AttachKeepsReferences(c: Ctx, scriptRef: Option<Utxo>, id: TxOutputId)
    requires HasId(c.inputs, id) && c.isFacade != IsFacade
    ensures var o := AttachScript(c, scriptRef);
            !o.threw && o.ctx.inputs == c.inputs && (id in IdsOf(o.ctx.builderRefs) <==> id in IdsOf(c.builderRefs))
  {
    if scriptRef.Some? { IdsOfSnoc(c.builderRefs, scriptRef.value); }
  }

  lemma CharterMovesReference(c: Ctx, op: Op, id: TxOutputId)
    requires op.OpCharter? && HasId(c.inputs, id) && c.isFacade != IsFacade
    ensures id in IdsOf(Do(c, op).ctx.builderRefs) <==> id in IdsOf(c.builderRefs) && op.u.id != id
  {
    AttachKeepsReferences(c, op.scriptRef, id);
    WithoutIdDrops(AttachScript(c, op.scriptRef).ctx.builderRefs, op.u.id);
    hide AttachScript;
  }

  /** One operation on a context in which the utxo is spent. */
  lemma DoKeepsReference(c: Ctx, op: Op, id: TxOutputId)
    requires Sound(c) && id in c.traces
    ensures id in Do(c, op).ctx.traces
    ensures id in IdsOf(Do(c, op).ctx.builderRefs) <==> id in IdsOf(c.builderRefs) && !SpendsCharter(op, id)
  {
    HasIdIsMember(c.inputs, id);
    DoExtends(c, op);
    match op
    case OpRef(u) => IdsOfSnoc(c.builderRefs, u);
    case OpCharter(_, _, _, _) =>
      hide UseCharter;
      CharterMovesReference(c, op, id);
    case _ =>
  }

  /** Main result: after any operations, a spent utxo is a reference of the builder exactly when it was
      one before and none of the operations spends it as the charter: nothing makes it one again, and
      nothing else removes it. */
  lemma {:induction false} SpentIsReferencedExactly(c: Ctx, ops: seq<Op>, id: TxOutputId)
    requires Sound(c) && id in c.traces
    ensures id in IdsOf(Run(c, ops).builderRefs) <==>
            id in IdsOf(c.builderRefs) && forall op <- ops :: !SpendsCharter(op, id)
    decreases |ops|
  {
    hide Sound, Do, SpendsCharter;
    if ops != [] {
      DoKeepsSound(c, ops[0]);
      DoKeepsReference(c, ops[0], id);
      SpentIsReferencedExactly(Do(c, ops[0]).ctx, ops[1..], id);
      assert ops == [ops[0]] + ops[1..];
    }
  }

  lemma SpendingUnreferences(c: Ctx, scriptRef: Option<Utxo>, u: Utxo, out: Output, accepted: bool)
    requires Sound(c) && u.id !in c.traces && c.isFacade != IsFacade
    ensures var d := UseCharter(c, scriptRef, u, out, accepted).ctx;
            u.id in d.traces && u.id !in IdsOf(d.builderRefs)
  {
    WithoutIdDrops(AttachScript(c, scriptRef).ctx.builderRefs, u.id);
  }

  /** So a reference input that is then spent in the ordinary way stays a reference. */
  lemma OrdinaryInputStaysReferenced(c: Ctx, u: Utxo, ops: seq<Op>)
    requires Sound(c) && u.id in IdsOf(c.builderRefs) && u.id !in c.traces && c.isFacade != IsFacade
    requires forall op <- ops :: !SpendsCharter(op, u.id)
    ensures var d := Run(Do(c, OpInput(u, true, true)).ctx, ops); u.id in d.traces && u.id in IdsOf(d.builderRefs)
  {
    var d := Do(c, OpInput(u, true, true)).ctx;
    DoKeepsSound(c, OpInput(u, true, true));
    SpentIsReferencedExactly(d, ops, u.id);
    RunExtends(d, ops);
  }

  // ----- tokens in and out -----

  function TokensIn(us: seq<Utxo>): multiset<string> {
    if us == [] then multiset{} else us[0].tokens + TokensIn(us[1..])
  }

  function TokensOut(outs: seq<Output>): multiset<string> {
    if outs == [] then multiset{} else outs[0].tokens + TokensOut(outs[1..])
  }

  lemma {:induction false} TokensInSnoc(us: seq<Utxo>, u: Utxo)
    ensures TokensIn(us + [u]) == TokensIn(us) + u.tokens
  {
    if us == [] {
      assert us + [u] == [u];
    } else {
      assert (us + [u])[1..] == us[1..] + [u];
      TokensInSnoc(us[1..], u);
    }
  }

  lemma {:induction false} TokensOutSnoc(outs: seq<Output>, o: Output)
    ensures TokensOut(outs + [o]) == TokensOut(outs) + o.tokens
  {
    if outs == [] {
      assert outs + [o] == [o];
    } else {
      assert (outs + [o])[1..] == outs[1..] + [o];
      TokensOutSnoc(outs[1..], o);
    }
  }

  /** Inputs plus mint equals outputs plus burn, for every authority token. */
  predicate Balanced(c: Ctx) {
    TokensIn(c.inputs) + c.minted == TokensOut(c.outputs) + c.burned
  }

  // ----- the context as it is written -----

  class Context {
    var isFacade: FacadeFlag
    var inputs: seq<Utxo>
    var inputStackTraces: set<TxOutputId>
    var outputs: seq<Output>
    var txRefInputs: seq<Utxo>
    var builderRefs: seq<Utxo>
    var minted: multiset<string>
    var burned: multiset<string>
    var seedUtxo: Option<Utxo>
    var addlTxns: seq<string>

    ghost function View(): Ctx
      reads this
    {
      Ctx(isFacade, inputs, inputStackTraces, outputs, txRefInputs, builderRefs, minted, burned, seedUtxo, addlTxns)
    }

    constructor ()
      ensures View() == EMPTY
    {
      isFacade, inputs, inputStackTraces, outputs, txRefInputs := Undecided, [], {}, [], [];
      builderRefs, minted, burned, seedUtxo, addlTxns := [], multiset{}, multiset{}, None, [];
    }

    method BecomeFacade() returns (threw: bool)
      modifies this
      ensures Outcome(View(), threw) == Facade(old(View()))
    {
      if isFacade == NotFacade {
        return true;
      }
      isFacade := IsFacade;
      threw := false;
    }

    method RefuseFacade() returns (threw: bool)
      modifies this`isFacade
      ensures Outcome(View(), threw) == NoFacade(old(View()))
    {
      if isFacade == IsFacade {
        return true;
      }
      isFacade := NotFacade;
      threw := false;
    }

    method Include(name: string) returns (threw: bool)
      modifies this`addlTxns
      ensures Outcome(View(), threw) == IncludeAddlTxn(old(View()), name)
    {
      if isFacade.Undecided? || name in addlTxns {
        return true;
      }
      addlTxns := addlTxns + [name];
      threw := false;
    }

    method Spend(input: Utxo, redeemerOk: bool, accepted: bool) returns (threw: bool)
      modifies this
      ensures Outcome(View(), threw) == AddInput(old(View()), input, redeemerOk, accepted)
    {
      threw := RefuseFacade();
      if threw || !redeemerOk || input.id in inputStackTraces {
        return true;
      }
      inputStackTraces := inputStackTraces + {input.id};
      inputs := inputs + [input];
      threw := !accepted;
    }

    method Refer(input: Utxo) returns (threw: bool)
      modifies this
      ensures Outcome(View(), threw) == AddRefInput(old(View()), input)
    {
      threw := RefuseFacade();
      if threw || HasId(txRefInputs, input.id) || HasId(inputs, input.id) {
        return;
      }
      txRefInputs := txRefInputs + [input];
      builderRefs := builderRefs + [input];
    }

    method Put(output: Output, accepted: bool) returns (threw: bool)
      modifies this
      ensures Outcome(View(), threw) == AddOutput(old(View()), output, accepted)
    {
      threw := RefuseFacade();
      if threw || !accepted {
        return true;
      }
      outputs := outputs + [output];
    }

    method Mint(tokens: multiset<string>, burn: multiset<string>) returns (threw: bool)
      modifies this
      ensures Outcome(View(), threw) == MintTokens(old(View()), tokens, burn)
    {
      threw := RefuseFacade();
      if threw {
        return;
      }
      minted := minted + tokens;
      burned := burned + burn;
    }

    method AddSeed(given: Option<Utxo>, found: Utxo, accepted: bool) returns (threw: bool)
      modifies this
      ensures Outcome(View(), threw) == WithSeed(old(View()), given, found, accepted)
    {
      if seedUtxo.Some? {
        return false;
      }
      if given.Some? {
        if !HasId(inputs, given.value.id) {
          threw := Spend(given.value, true, accepted);
          if threw {
            return;
          }
        }
        seedUtxo := given;
        return false;
      }
      threw := Spend(found, true, accepted);
      if !threw {
        seedUtxo := Some(found);
      }
    }

    method SpendCharter(scriptRef: Option<Utxo>, charter: Utxo, output: Output, accepted: bool) returns (threw: bool)
      modifies this
      ensures Outcome(View(), threw) == UseCharter(old(View()), scriptRef, charter, output, accepted)
    {
      if scriptRef.Some? {
        threw := Refer(scriptRef.value);
      } else {
        threw := RefuseFacade();
      }
      if threw {
        return;
      }
      builderRefs := WithoutId(builderRefs, charter.id);
      threw := Spend(charter, true, accepted);
      if threw {
        return;
      }
      threw := Put(output, true);
    }
  }
}
