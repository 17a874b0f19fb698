/**
 * What a transaction context holds after a run of operations: everything that an operation which did
 * not throw was to leave there, and nothing that none of them brought.
 */
module TxnHistory {
  import opened Wrappers
  import opened CharterModel
  import opened TxnContext

  /** When an operation throws. Nothing else does: adding a reference again, or a seed to a context that
      has one, is no error. */
  lemma ThrowsExactly(c: Ctx, op: Op)
    requires c.traces == IdsOf(c.inputs)
    ensures Do(c, op).threw <==>
            match op
            case OpFacade => c.isFacade.NotFacade?
            case OpInclude(name) => c.isFacade.Undecided? || name in c.addlTxns
            case OpInput(u, redeemerOk, accepted) => c.isFacade.IsFacade? || !redeemerOk || u.id in c.traces || !accepted
            case OpRef(_) => c.isFacade.IsFacade?
            case OpOutput(_, accepted) => c.isFacade.IsFacade? || !accepted
            case OpMint(_, _) => c.isFacade.IsFacade?
            case OpSeed(given, found, accepted) =>
              c.seed.None? && (given.Some? ==> given.value.id !in c.traces)
              && (c.isFacade.IsFacade? || !accepted || (given.None? && found.id in c.traces))
            case OpCharter(_, u, _, accepted) => c.isFacade.IsFacade? || u.id in c.traces || !accepted
  {
    match op
    case OpSeed(given, found, accepted) => if given.Some? { HasIdIsMember(c.inputs, given.value.id); }
    case OpCharter(scriptRef, u, _, _) => AttachKeepsTraces(c, scriptRef);
    case _ =>
  }

  lemma AttachKeepsTraces(c: Ctx, scriptRef: Option<Utxo>)
    ensures var o := AttachScript(c, scriptRef);
            && o.ctx.traces == c.traces && o.ctx.inputs == c.inputs && o.ctx.outputs == c.outputs
            && o.ctx.minted == c.minted && o.ctx.burned == c.burned && o.ctx.addlTxns == c.addlTxns && o.ctx.seed == c.seed
            && (o.threw <==> c.isFacade.IsFacade?) && (o.threw ==> o.ctx == c) && (!o.threw ==> o.ctx.isFacade.NotFacade?)
            && (o.ctx.refs == c.refs || (scriptRef.Some? && o.ctx.refs == c.refs + [scriptRef.value]))
            && (!o.threw && scriptRef.Some? ==> scriptRef.value.id in IdsOf(o.ctx.refs) + IdsOf(c.inputs))
  {
    if scriptRef.Some? {
      var id := scriptRef.value.id;
      HasIdIsMember(c.refs, id);
      HasIdIsMember(c.inputs, id);
      IdsOfSnoc(c.refs, scriptRef.value);
    }
  }

  // ----- nothing that was done is missing -----

  /** What an operation that did not throw has left in a context. */
  predicate Left(op: Op, d: Ctx) {
    match op
    case OpFacade => d.isFacade.IsFacade?
    case OpInclude(name) => name in d.addlTxns
    case OpInput(u, _, _) => d.isFacade.NotFacade? && u in d.inputs && u.id in d.traces
    case OpRef(u) => d.isFacade.NotFacade? && u.id in IdsOf(d.refs) + d.traces
    case OpOutput(out, _) => d.isFacade.NotFacade? && out in d.outputs
    case OpMint(_, _) => d.isFacade.NotFacade?
    case OpSeed(_, _, _) => d.seed.Some? && d.seed.value.id in d.traces
    case OpCharter(scriptRef, u, out, _) =>
      && d.isFacade.NotFacade? && u in d.inputs && u.id in d.traces && out in d.outputs
      && (scriptRef.Some? ==> scriptRef.value.id in IdsOf(d.refs) + d.traces)
  }

  lemma DoLeaves(c: Ctx, op: Op)
    requires Sound(c) && !Do(c, op).threw
    ensures Left(op, Do(c, op).ctx)
  {
    match op
    case OpRef(u) =>
      HasIdIsMember(c.refs, u.id);
      HasIdIsMember(c.inputs, u.id);
      IdsOfSnoc(c.refs, u);
    case OpSeed(given, found, _) =>
      DoKeepsSound(c, op);
      HasIdIsMember(Do(c, op).ctx.inputs, Do(c, op).ctx.seed.value.id);
    case OpCharter(scriptRef, _, _, _) => AttachKeepsTraces(c, scriptRef);
    case _ =>
  }

  lemma {:induction false} PrefixIds(a: seq<Utxo>, b: seq<Utxo>)
    requires a <= b
    ensures IdsOf(a) <= IdsOf(b)
  {
    if a != [] {
      PrefixIds(a[1..], b[1..]);
    }
  }

  lemma LeftStays(op: Op, c: Ctx, d: Ctx)
    requires Left(op, c) && Extends(c, d)
    ensures Left(op, d)
  {
    PrefixIds(c.refs, d.refs);
  }

  /** Main result: what an operation that did not throw has left is there at the end of the run. */
  lemma {:induction false} NothingIsMissing(c: Ctx, ops: seq<Op>, i: nat)
    requires Sound(c) && i < |ops| && !Do(Run(c, ops[..i]), ops[i]).threw
    ensures Left(ops[i], Run(c, ops))
    decreases |ops|
  {
    hide Sound, Do, Left, Extends;
    var next := Do(c, ops[0]).ctx;
    if i == 0 {
      assert Run(c, ops[..0]) == c;
      DoLeaves(c, ops[0]);
      RunExtends(next, ops[1..]);
      LeftStays(ops[0], next, Run(next, ops[1..]));
    } else {
      DoKeepsSound(c, ops[0]);
      assert ops[..i][1..] == ops[1..][..i - 1];
      NothingIsMissing(next, ops[1..], i - 1);
    }
  }

  // ----- nothing is there that was not brought -----

  /** The utxo that a seeding operation means: the one it is given, or else the one it finds. */
  function SeedMeant(op: Op): Utxo
    requires op.OpSeed?
  {
    if op.given.Some? then op.given.value else op.found
  }

  /** What an operation may add: an input, a reference, an output, a nested transaction, a seed. */
  predicate BringsInput(op: Op, u: Utxo) {
    (op.OpInput? && op.u == u) || (op.OpCharter? && op.u == u) || (op.OpSeed? && SeedMeant(op) == u)
  }

  predicate BringsRef(op: Op, u: Utxo) {
    (op.OpRef? && op.u == u) || (op.OpCharter? && op.scriptRef == Some(u))
  }

  predicate BringsOutput(op: Op, out: Output) {
    (op.OpOutput? || op.OpCharter?) && op.out == out
  }

  /** One operation adds at most one of each, and only what it brings; it adds to the mint what it
      mints, if it does not throw. */
  ghost predicate Brought(c: Ctx, op: Op, d: Ctx) {
    && (d.inputs == c.inputs || exists u :: BringsInput(op, u) && d.inputs == c.inputs + [u])
    && (d.refs == c.refs || exists u :: BringsRef(op, u) && d.refs == c.refs + [u])
    && (d.outputs == c.outputs || exists out :: BringsOutput(op, out) && d.outputs == c.outputs + [out])
    && (d.addlTxns == c.addlTxns || (op.OpInclude? && d.addlTxns == c.addlTxns + [op.name]))
    && (d.seed == c.seed || (op.OpSeed? && d.seed == Some(SeedMeant(op))))
    && (op.OpFacade? || d.isFacade.NotFacade? || d.isFacade == c.isFacade)
  }

  lemma DoBrings(c: Ctx, op: Op)
    ensures Brought(c, op, Do(c, op).ctx)
    ensures var o := Do(c, op);
            && o.ctx.minted == c.minted + (if op.OpMint? && !o.threw then op.minted else multiset{})
            && o.ctx.burned == c.burned + (if op.OpMint? && !o.threw then op.burned else multiset{})
  {
    hide Brought, UseCharter, WithSeed, AddInput, AddRefInput;
    match op
    case OpInput(u, redeemerOk, accepted) => InputBrings(c, u, redeemerOk, accepted);
    case OpRef(u) => RefBrings(c, u);
    case OpSeed(given, found, accepted) => SeedBrings(c, given, found, accepted);
    case OpCharter(scriptRef, u, out, accepted) => CharterBrings(c, scriptRef, u, out, accepted);
    case _ => OtherBrings(c, op);
  }

  lemma InputBrings(c: Ctx, u: Utxo, redeemerOk: bool, accepted: bool)
    ensures var d := AddInput(c, u, redeemerOk, accepted).ctx;
            && Brought(c, OpInput(u, redeemerOk, accepted), d) && d.minted == c.minted && d.burned == c.burned
  {
    assert BringsInput(OpInput(u, redeemerOk, accepted), u);
  }

  lemma RefBrings(c: Ctx, u: Utxo)
    ensures var d := AddRefInput(c, u).ctx;
            Brought(c, OpRef(u), d) && d.minted == c.minted && d.burned == c.burned
  {
    assert BringsRef(OpRef(u), u);
  }

  lemma SeedBrings(c: Ctx, given: Option<Utxo>, found: Utxo, accepted: bool)
    ensures var d := WithSeed(c, given, found, accepted).ctx;
            Brought(c, OpSeed(given, found, accepted), d) && d.minted == c.minted && d.burned == c.burned
  {
    var op := OpSeed(given, found, accepted);
    assert BringsInput(op, SeedMeant(op));
  }

  lemma OtherBrings(c: Ctx, op: Op)
    requires op.OpFacade? || op.OpInclude? || op.OpOutput? || op.OpMint?
    ensures Brought(c, op, Do(c, op).ctx)
    ensures var o := Do(c, op);
            && o.ctx.minted == c.minted + (if op.OpMint? && !o.threw then op.minted else multiset{})
            && o.ctx.burned == c.burned + (if op.OpMint? && !o.threw then op.burned else multiset{})
  {
    if op.OpOutput? { assert BringsOutput(op, op.out); }
  }

  lemma CharterBrings(c: Ctx, scriptRef: Option<Utxo>, u: Utxo, out: Output, accepted: bool)
    ensures var d := UseCharter(c, scriptRef, u, out, accepted).ctx;
            && Brought(c, OpCharter(scriptRef, u, out, accepted), d) && d.minted == c.minted && d.burned == c.burned
  {
    var op := OpCharter(scriptRef, u, out, accepted);
    AttachKeepsTraces(c, scriptRef);
    hide AttachScript;
    assert BringsInput(op, u) && BringsOutput(op, out);
    if scriptRef.Some? { assert BringsRef(op, scriptRef.value); }
  }

  /** What the operations of a run that do not throw mint and burn. */
  function MintedBy(c: Ctx, ops: seq<Op>): multiset<string>
    decreases |ops|
  {
    if ops == [] then multiset{}
    else (if ops[0].OpMint? && !Do(c, ops[0]).threw then ops[0].minted else multiset{}) + MintedBy(Do(c, ops[0]).ctx, ops[1..])
  }

  function BurnedBy(c: Ctx, ops: seq<Op>): multiset<string>
    decreases |ops|
  {
    if ops == [] then multiset{}
    else (if ops[0].OpMint? && !Do(c, ops[0]).threw then ops[0].burned else multiset{}) + BurnedBy(Do(c, ops[0]).ctx, ops[1..])
  }

  /** Main result: every input, reference, output, nested transaction and the seed was in the context
      before the run or was brought by one of its operations, and the mint is what they minted. */
  lemma {:induction false} NothingIsAdded(c: Ctx, ops: seq<Op>)
    ensures var d := Run(c, ops);
            && (forall u <- d.inputs :: u in c.inputs || exists op <- ops :: BringsInput(op, u))
            && (forall u <- d.refs :: u in c.refs || exists op <- ops :: BringsRef(op, u))
            && (forall out <- d.outputs :: out in c.outputs || exists op <- ops :: BringsOutput(op, out))
            && (forall name <- d.addlTxns :: name in c.addlTxns || exists op <- ops :: op.OpInclude? && op.name == name)
            && (d.seed == c.seed || exists op <- ops :: op.OpSeed? && d.seed == Some(SeedMeant(op)))
            && d.minted == c.minted + MintedBy(c, ops) && d.burned == c.burned + BurnedBy(c, ops)
    decreases |ops|
  {
    hide Do, BringsInput, BringsRef, BringsOutput;
    if ops != [] {
      DoBrings(c, ops[0]);
      NothingIsAdded(Do(c, ops[0]).ctx, ops[1..]);
      assert ops[0] in ops && forall op <- ops[1..] :: op in ops;
    }
  }

  // ----- what the builder refers to -----

  /** One operation, as to one reference. */
  lemma DoRefers(c: Ctx, op: Op, id: TxOutputId)
    requires Sound(c)
    ensures var d := Do(c, op).ctx;
            && (id in IdsOf(d.builderRefs) <==>
                  id in IdsOf(d.refs) && (id in IdsOf(c.refs) ==> id in IdsOf(c.builderRefs)) && !SpendsCharter(op, id))
            && (id in c.traces && id !in IdsOf(c.refs) ==> id !in IdsOf(d.refs))
            && (id in c.traces ==> id in d.traces)
            && (SpendsCharter(op, id) && !c.isFacade.IsFacade? ==> id in d.traces)
  {
    hide UseCharter, AddRefInput;
    match op
    case OpRef(u) => RefRefers(c, u, id);
    case OpCharter(scriptRef, u, out, accepted) => CharterRefers(c, scriptRef, u, out, accepted, id);
    case _ =>
      HasIdIsMember(c.inputs, id);
      HasIdIsMember(c.refs, id);
      DoExtends(c, op);
  }

  lemma RefRefers(c: Ctx, u: Utxo, id: TxOutputId)
    requires Sound(c)
    ensures var d := AddRefInput(c, u).ctx;
            && (id in IdsOf(d.builderRefs) <==> id in IdsOf(d.refs) && (id in IdsOf(c.refs) ==> id in IdsOf(c.builderRefs)))
            && (id in c.traces && id !in IdsOf(c.refs) ==> id !in IdsOf(d.refs))
            && d.traces == c.traces && d.inputs == c.inputs && (c.isFacade.IsFacade? ==> d == c)
  {
    HasIdIsMember(c.inputs, id);
    HasIdIsMember(c.refs, id);
    IdsOfSnoc(c.refs, u);
    IdsOfSnoc(c.builderRefs, u);
  }

  lemma CharterRefers(c: Ctx, scriptRef: Option<Utxo>, u: Utxo, out: Output, accepted: bool, id: TxOutputId)
    requires Sound(c)
    ensures var d := UseCharter(c, scriptRef, u, out, accepted).ctx;
            && (id in IdsOf(d.builderRefs) <==>
                  id in IdsOf(d.refs) && (id in IdsOf(c.refs) ==> id in IdsOf(c.builderRefs)) && u.id != id)
            && (id in c.traces && id !in IdsOf(c.refs) ==> id !in IdsOf(d.refs))
            && (id in c.traces ==> id in d.traces) && (u.id == id && !c.isFacade.IsFacade? ==> id in d.traces)
            && (c.isFacade.IsFacade? ==> d == c)
  {
    if scriptRef.Some? { RefRefers(c, scriptRef.value, id); }
    var o := AttachScript(c, scriptRef);
    hide AttachScript;
    assert o.threw <==> c.isFacade.IsFacade? by { AttachKeepsTraces(c, scriptRef); }
    WithoutIdDrops(o.ctx.builderRefs, u.id);
    AttachKeepsTraces(c, scriptRef);
  }

  lemma {:induction false} StaysUnreferenced(c: Ctx, ops: seq<Op>, id: TxOutputId)
    requires Sound(c) && id in c.traces && id !in IdsOf(c.refs)
    ensures id !in IdsOf(Run(c, ops).refs)
    decreases |ops|
  {
    hide Sound, Do;
    if ops != [] {
      DoKeepsSound(c, ops[0]);
      DoRefers(c, ops[0], id);
      StaysUnreferenced(Do(c, ops[0]).ctx, ops[1..], id);
    }
  }

  lemma {:induction false} FacadeHasNoRefs(c: Ctx, ops: seq<Op>)
    requires Sound(c) && c.isFacade.IsFacade?
    ensures IdsOf(Run(c, ops).refs) == {}
  {
    RunKeepsSound(c, ops);
    RunExtends(c, ops);
  }

  /** Main result: after a run the builder refers to exactly the recorded references that no operation
      has spent as the charter, except those it did not refer to in the beginning. */
  lemma {:induction false} BuilderRefersExactly(c: Ctx, ops: seq<Op>, id: TxOutputId)
    requires Sound(c)
    ensures id in IdsOf(Run(c, ops).builderRefs) <==>
            && id in IdsOf(Run(c, ops).refs) && (id in IdsOf(c.refs) ==> id in IdsOf(c.builderRefs))
            && forall op <- ops :: !SpendsCharter(op, id)
    decreases |ops|
  {
    hide Sound, Do, SpendsCharter;
    if ops != [] {
      var d := Do(c, ops[0]).ctx;
      DoKeepsSound(c, ops[0]);
      DoRefers(c, ops[0], id);
      BuilderRefersExactly(d, ops[1..], id);
      assert ops == [ops[0]] + ops[1..];
      if c.isFacade.IsFacade? {
        FacadeHasNoRefs(c, ops);
      } else if SpendsCharter(ops[0], id) && id !in IdsOf(d.refs) {
        StaysUnreferenced(d, ops[1..], id);
      }
      RunExtends(d, ops[1..]);
      PrefixIds(d.refs, Run(c, ops).refs);
      DoExtends(c, ops[0]);
      PrefixIds(c.refs, d.refs);
    } else {
      IdsWithin(c, id);
    }
  }

  lemma IdsWithin(c: Ctx, id: TxOutputId)
    requires Sound(c)
    ensures id in IdsOf(c.builderRefs) ==> id in IdsOf(c.refs)
  {
  }
}
