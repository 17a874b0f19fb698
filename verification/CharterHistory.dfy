/**
 * What a charter says after a run of builders, field by field: each delegate link is the one that the
 * last successful step of its own kind set, and each manifest entry what its last successful request
 * asked for.
 */
module CharterHistory {
  import opened Wrappers
  import opened OrderedMap
  import opened CharterModel
  import opened CharterProtocol
  import opened CharterInvariant
  import opened CharterSafety
  import opened BatchCommit

  // ----- the delegate links -----

  /** A place in the charter that holds a delegate's link. */
  datatype Slot = SpendSlot | MintSlot | GovSlot | NamedSlot(name: string)

  function LinkIn(c: Charter, s: Slot): Option<Link> {
    match s
    case SpendSlot => Some(c.spendDelegateLink)
    case MintSlot => Some(c.mintDelegateLink)
    case GovSlot => Some(c.govAuthorityLink)
    case NamedSlot(name) => Get(c.otherNamedDelegates, name)
  }

  /** The op, when it succeeds, sets the link in this place; nothing sets the governance link. */
  predicate Sets(op: Op, s: Slot) {
    match op
    case UpdateSpend(_, _, _, _) => s.SpendSlot?
    case UpdateMint(_, _, _, _) => s.MintSlot?
    case AddNamed(name, _, _, _, _) => s == NamedSlot(name)
    case _ => false
  }

  /** The link has the token that the op mints, and the script and configuration that it was given. */
  predicate IsSetBy(h: SeedHash, op: Op, link: Link)
    requires op.UpdateSpend? || op.UpdateMint? || op.AddNamed?
  {
    && link.uutName == (match op
                        case UpdateSpend(_, _, _, _) => "spendDgt"
                        case UpdateMint(_, _, _, _) => "mintDgt"
                        case AddNamed(name, uutName, _, _, _) => if uutName != "" then uutName else name)
                       + "-" + h(op.seed)
    && link.validatorHash == op.scriptHash && link.config == op.config
  }

  /** One step sets the link in its own place, mints that link's token, and leaves every other link. */
  lemma StepSetsLink(h: SeedHash, st: State, op: Op, s: Slot)
    requires Distinct(st.charter.otherNamedDelegates) && Step(h, st, op).Ok?
    ensures var next := Step(h, st, op).value;
            && Distinct(next.charter.otherNamedDelegates)
            && if Sets(op, s) then
                 var link := LinkIn(next.charter, s);
                 link.Some? && IsSetBy(h, op, link.value) && next.minted == st.minted + multiset{link.value.uutName}
               else LinkIn(next.charter, s) == LinkIn(st.charter, s)
  {
    if op.AddNamed? {
      NamedSetsLink(h, st, op, s);
    } else if op.UpdateMint? || op.UpdateSpend? {
      UpdateSetsLink(h, st, op);
    } else {
      OthersLeaveLinks(h, st, op);
      hide Step;
    }
  }

  lemma UpdateSetsLink(h: SeedHash, st: State, op: Op)
    requires (op.UpdateMint? || op.UpdateSpend?) && Step(h, st, op).Ok?
    ensures var c, next := st.charter, Step(h, st, op).value;
            var d := next.charter;
            && d.govAuthorityLink == c.govAuthorityLink && d.otherNamedDelegates == c.otherNamedDelegates
            && (if op.UpdateMint? then d.spendDelegateLink == c.spendDelegateLink && IsSetBy(h, op, d.mintDelegateLink)
                else d.mintDelegateLink == c.mintDelegateLink && IsSetBy(h, op, d.spendDelegateLink))
            && next.minted == st.minted + multiset{if op.UpdateMint? then d.mintDelegateLink.uutName
                                                   else d.spendDelegateLink.uutName}
  {
  }

  lemma OthersLeaveLinks(h: SeedHash, st: State, op: Op)
    requires (op.Queue? || op.Install? || op.CommitPending? || op.AddEntry?) && Step(h, st, op).Ok?
    ensures var c, d := st.charter, Step(h, st, op).value.charter;
            && d.govAuthorityLink == c.govAuthorityLink && d.otherNamedDelegates == c.otherNamedDelegates
            && d.mintDelegateLink == c.mintDelegateLink && d.spendDelegateLink == c.spendDelegateLink
  {
    match op
    case CommitPending => hide QueueChange, AddManifestEntry;
    case AddEntry(_, _) => hide QueueChange, Commit;
    case _ => hide Commit, AddManifestEntry, CheckKind, FindController, MkPending;
  }

  lemma NamedSetsLink(h: SeedHash, st: State, op: Op, s: Slot)
    requires Distinct(st.charter.otherNamedDelegates) && op.AddNamed? && Step(h, st, op).Ok?
    ensures var next := Step(h, st, op).value;
            && Distinct(next.charter.otherNamedDelegates)
            && if Sets(op, s) then
                 var link := LinkIn(next.charter, s);
                 link.Some? && IsSetBy(h, op, link.value) && next.minted == st.minted + multiset{link.value.uutName}
               else LinkIn(next.charter, s) == LinkIn(st.charter, s)
  {
    var link := Link(UutNameOf(h, if op.uutName == "" then op.name else op.uutName, op.seed), op.scriptHash, op.config);
    var links := st.charter.otherNamedDelegates;
    FromEntriesSnoc(links, op.name, link);
    PutKeepsDistinct(links, op.name, link);
    GetOfPut(links, op.name, link, if s.NamedSlot? then s.name else op.name);
    hide FromEntries, Put, Get, Distinct;
  }

  /** A delegate update leaves the manifest and the pending changes as they are, and so does a named
      delegate; an update burns or strands the token of the link it replaces. */
  lemma LinkStepsLeaveTheRest(h: SeedHash, st: State, op: Op)
    requires (op.UpdateSpend? || op.UpdateMint? || op.AddNamed?) && Step(h, st, op).Ok?
    ensures var next := Step(h, st, op).value;
            && next.charter.manifest == st.charter.manifest && next.charter.pendingChanges == st.charter.pendingChanges
            && (!op.AddNamed? ==>
                  var replaced := multiset{if op.UpdateMint? then st.charter.mintDelegateLink.uutName
                                       else st.charter.spendDelegateLink.uutName};
                  if op.forced then next.burned == st.burned && next.stranded == st.stranded + replaced
                  else next.burned == st.burned + replaced && next.stranded == st.stranded)
  {
  }

  /** The op at this position of the run does not throw. */
  predicate Succeeds(h: SeedHash, st: State, ops: seq<Op>, i: nat)
    requires i < |ops|
  {
    Step(h, Run(h, st, ops[..i]), ops[i]).Ok?
  }

  /** The op at this position is the last of the run to have set the link. */
  predicate LastSet(h: SeedHash, st: State, ops: seq<Op>, s: Slot, i: nat)
    requires i < |ops|
  {
    && Sets(ops[i], s) && Succeeds(h, st, ops, i)
    && forall j :: i < j < |ops| && Sets(ops[j], s) ==> !Succeeds(h, st, ops, j)
  }

  function Next(h: SeedHash, st: State, op: Op): State {
    match Step(h, st, op) case Ok(next) => next case Err(_) => st
  }

  lemma {:induction false} RunSnoc(h: SeedHash, st: State, ops: seq<Op>, op: Op)
    ensures Run(h, st, ops + [op]) == Next(h, Run(h, st, ops), op)
    decreases |ops|
  {
    hide Step;
    if ops == [] {
      assert (ops + [op])[1..] == [];
    } else {
      assert (ops + [op])[1..] == ops[1..] + [op];
      RunSnoc(h, Next(h, st, ops[0]), ops[1..], op);
    }
  }

  lemma {:induction false} RunInTwo(h: SeedHash, st: State, a: seq<Op>, b: seq<Op>)
    ensures Run(h, st, a + b) == Run(h, Run(h, st, a), b)
    decreases |a|
  {
    hide Step;
    if a == [] {
      assert a + b == b;
    } else {
      assert (a + b)[1..] == a[1..] + b;
      RunInTwo(h, Next(h, st, a[0]), a[1..], b);
    }
  }

  lemma SucceedsBefore(h: SeedHash, st: State, front: seq<Op>, last: Op, i: nat)
    requires i < |front|
    ensures Succeeds(h, st, front + [last], i) <==> Succeeds(h, st, front, i)
  {
    assert (front + [last])[..i] == front[..i];
  }

  /** Main result: over any run, from any charter, each delegate link is the one that the last
      successful op of its own kind has set, or the one it started with. */
  lemma {:induction false} LinkIsLastSet(h: SeedHash, st: State, ops: seq<Op>, s: Slot)
    requires Distinct(st.charter.otherNamedDelegates)
    ensures Distinct(Run(h, st, ops).charter.otherNamedDelegates)
    ensures var link := LinkIn(Run(h, st, ops).charter, s);
            && (forall i :: 0 <= i < |ops| && LastSet(h, st, ops, s, i) ==> link.Some? && IsSetBy(h, ops[i], link.value))
            && ((forall i :: 0 <= i < |ops| && Sets(ops[i], s) ==> !Succeeds(h, st, ops, i)) ==>
                  link == LinkIn(st.charter, s))
    decreases |ops|
  {
    if ops != [] {
      hide Step, LinkIn, IsSetBy, Sets, Run;
      var n := |ops| - 1;
      var front, last := ops[..n], ops[n];
      assert ops == front + [last];
      LinkIsLastSet(h, st, front, s);
      RunSnoc(h, st, front, last);
      forall i | 0 <= i < n ensures Succeeds(h, st, ops, i) <==> Succeeds(h, st, front, i) {
        SucceedsBefore(h, st, front, last, i);
      }
      var before := Run(h, st, front);
      if Step(h, before, last).Ok? {
        StepSetsLink(h, before, last, s);
      }
      assert Succeeds(h, st, ops, n) <==> Step(h, before, last).Ok?;
      LastOfMore(h, st, front, last, s);
    } else {
      hide Step;
    }
  }

  /** The last setter of a longer run is its last op, or the last setter of the rest. */
  lemma LastOfMore(h: SeedHash, st: State, front: seq<Op>, last: Op, s: Slot)
    requires forall i :: 0 <= i < |front| ==> (Succeeds(h, st, front + [last], i) <==> Succeeds(h, st, front, i))
    ensures forall i :: 0 <= i < |front| && LastSet(h, st, front + [last], s, i) ==>
              LastSet(h, st, front, s, i) && !(Sets(last, s) && Succeeds(h, st, front + [last], |front|))
  {
    hide Step, Sets, Succeeds;
    forall i | 0 <= i < |front| && LastSet(h, st, front + [last], s, i)
      ensures LastSet(h, st, front, s, i) && !(Sets(last, s) && Succeeds(h, st, front + [last], |front|))
    {
      forall j | i < j < |front| && Sets(front[j], s) ensures !Succeeds(h, st, front, j) {
        assert (front + [last])[j] == front[j];
      }
      assert (front + [last])[|front|] == last;
    }
  }

  // ----- the manifest -----

  /** The change asks for the policy of these options, under a token from this seed. */
  predicate Requests(h: SeedHash, o: QueueOptions, seed: TxOutputId, p: PendingChange) {
    && IsPendingFor(p, o.typeName) && !p.action.Remove? && p.dgtLink.Some?
    && p.action.seed == seed && p.action.idPrefix == o.idPrefix
    && p.action.purpose == (if o.uutName != "" then o.uutName else "dgPol")
    && p.dgtLink.value.uutName == p.action.purpose + "-" + h(p.action.seed)
    && p.dgtLink.value.validatorHash == o.scripts.next && p.dgtLink.value.config == o.config
  }

  /** The entry is the policy of these options, under a token from this seed. */
  predicate AsRequested(h: SeedHash, o: QueueOptions, seed: TxOutputId, e: ManifestEntry) {
    && e.tokenName == (if o.uutName != "" then o.uutName else "dgPol") + "-" + h(seed)
    && e.mph.None? && e.entryType.DgDataPolicy? && e.entryType.idPrefix == o.idPrefix && e.entryType.refCount == 1
    && var link := e.entryType.policyLink;
       link.uutName == e.tokenName && link.validatorHash == o.scripts.next && link.config == o.config
  }

  /** Queueing puts in front one change that asks for what the options say: an Add of a policy that the
      manifest does not have, or a Replace that names the token of the one it has. */
  lemma StepRequests(h: SeedHash, st: State, op: Op)
    requires (op.Queue? || op.Install?) && GoodCharter(st.charter) && Step(h, st, op).Ok?
    ensures var c, next := st.charter, Step(h, st, op).value;
            && next.charter.pendingChanges != [] && next.charter.pendingChanges[1..] == c.pendingChanges
            && next.charter == c.(pendingChanges := next.charter.pendingChanges)
    ensures var c, next := st.charter, Step(h, st, op).value;
            var p := next.charter.pendingChanges[0];
            && Requests(h, op.options, op.seed, p)
            && next.minted == st.minted + multiset{p.dgtLink.value.uutName}
            && if Has(c.manifest, op.options.typeName)
               then p.action.Replace? && p.action.replacesDgt == Get(c.manifest, op.options.typeName).value.tokenName
               else p.action.Add?
  {
    var kind := if op.Queue? then op.kind
                else if FindPolicy(st.charter.manifest, op.options.typeName).Some? then ReplaceChange else AddChange;
    QueuedChange(h, st.charter, kind, op.options, op.seed);
    QueueSucceedsExactly(h, st.charter, kind, op.options, op.seed);
    FindPolicyIsLookup(st.charter.manifest, op.options.typeName);
  }

  /** Adding a manifest entry sets its key to just that entry, and leaves everything else. */
  lemma StepAddsEntry(h: SeedHash, st: State, op: Op, k: string)
    requires op.AddEntry? && Distinct(st.charter.manifest) && Step(h, st, op).Ok?
    ensures var next := Step(h, st, op).value;
            && Get(next.charter.manifest, k) == (if k == op.key then Some(op.entry) else Get(st.charter.manifest, k))
            && next == st.(charter := st.charter.(manifest := next.charter.manifest))
  {
    FromEntriesSnoc(st.charter.manifest, op.key, op.entry);
    GetOfPut(st.charter.manifest, op.key, op.entry, k);
  }

  /** Until a commit, no step takes a pending change away. */
  lemma StepKeepsPending(h: SeedHash, st: State, op: Op, p: PendingChange)
    requires GoodCharter(st.charter) && Step(h, st, op).Ok? && !op.CommitPending? && p in st.charter.pendingChanges
    ensures p in Step(h, st, op).value.charter.pendingChanges
  {
    hide GoodCharter, QueueChange;
    if op.Queue? || op.Install? {
      StepRequests(h, st, op);
      var next := Step(h, st, op).value;
      assert p in next.charter.pendingChanges[1..];
    }
  }

  lemma {:induction false} RunKeepsPending(h: SeedHash, st: State, ops: seq<Op>, p: PendingChange)
    requires Inv(h, st) && RunWellUsed(h, st, ops) && GoodHash(h, st.spent + SeedsOf(ops))
    requires (forall op <- ops :: !op.CommitPending?) && p in st.charter.pendingChanges
    ensures Inv(h, Run(h, st, ops)) && p in Run(h, st, ops).charter.pendingChanges
    decreases |ops|
  {
    hide Conserved, UniqueNames, GoodCharter, GoodHash, Step;
    if ops != [] {
      var next := Next(h, st, ops[0]);
      FirstKeepsInv(h, st, ops);
      if Step(h, st, ops[0]).Ok? {
        StepKeepsPending(h, st, ops[0], p);
      }
      RunKeepsPending(h, next, ops[1..], p);
    }
  }

  lemma FirstKeepsInv(h: SeedHash, st: State, ops: seq<Op>)
    requires ops != [] && Inv(h, st) && RunWellUsed(h, st, ops) && GoodHash(h, st.spent + SeedsOf(ops))
    ensures var next := Next(h, st, ops[0]);
            Inv(h, next) && RunWellUsed(h, next, ops[1..]) && GoodHash(h, next.spent + SeedsOf(ops[1..]))
  {
    hide Inv, GoodHash, WellUsed;
    var next := Next(h, st, ops[0]);
    if Step(h, st, ops[0]).Ok? {
      StepIsApply(h, st, ops[0]);
      if SeedOf(ops[0]).Some? {
        GoodHashOnFewer(h, st.spent + {SeedOf(ops[0]).value}, st.spent + SeedsOf(ops));
      }
      StepKeepsInv(h, st, ops[0]);
    }
    hide Step;
    GoodHashOnFewer(h, next.spent + SeedsOf(ops[1..]), st.spent + SeedsOf(ops));
  }

  lemma {:induction false} OnlyOneFor(pending: seq<PendingChange>, name: string, p: PendingChange, q: PendingChange)
    requires DistinctNames(pending) && p in pending && q in pending && IsPendingFor(p, name) && IsPendingFor(q, name)
    ensures p == q
  {
    if p == pending[0] || q == pending[0] {
      var other := if p == pending[0] then q else p;
      if other != pending[0] {
        NotAmongNone(pending[1..], name, other);
        assert false;
      }
    } else {
      OnlyOneFor(pending[1..], name, p, q);
    }
  }

  lemma {:induction false} NotAmongNone(pending: seq<PendingChange>, name: string, p: PendingChange)
    requires p in pending && IsPendingFor(p, name)
    ensures !NoneFor(pending, name)
  {
    if p != pending[0] {
      NotAmongNone(pending[1..], name, p);
    }
  }

  /** Main result: what is queued is what the next commit installs, whatever other builders run in
      between: the policy under the type's name has the token minted for it, and the prefix, script and
      configuration that were asked for. */
  lemma QueuedIsInstalled(h: SeedHash, st: State, op: Op, between: seq<Op>)
    requires (op.Queue? || op.Install?) && Inv(h, st) && Step(h, st, op).Ok?
    requires RunWellUsed(h, st, [op] + between) && GoodHash(h, st.spent + SeedsOf([op] + between))
    requires forall b <- between :: !b.CommitPending?
    ensures var x := Run(h, st, [op] + between + [CommitPending]);
            && Has(x.charter.manifest, op.options.typeName)
            && AsRequested(h, op.options, op.seed, Get(x.charter.manifest, op.options.typeName).value)
            && x.charter.pendingChanges == []
  {
    hide Conserved, UniqueNames, GoodCharter, GoodHash, Step, QueueChange, Commit;
    var ops := [op] + between;
    var n := op.options.typeName;
    assert ops[0] == op && ops[1..] == between;
    FirstKeepsInv(h, st, ops);
    StepRequests(h, st, op);
    var next := Step(h, st, op).value;
    var p := next.charter.pendingChanges[0];
    RunKeepsPending(h, next, between, p);
    var y := Run(h, st, ops);
    RunSnoc(h, st, ops, CommitPending);
    CommitInstalls(h, y, n, p);
  }

  lemma CommitInstalls(h: SeedHash, st: State, n: string, p: PendingChange)
    requires GoodCharter(st.charter) && p in st.charter.pendingChanges && IsPendingFor(p, n)
    ensures Step(h, st, CommitPending).Ok?
    ensures var x := Step(h, st, CommitPending).value;
            && x.charter.pendingChanges == []
            && Has(x.charter.manifest, n) && Installs(p, Get(x.charter.manifest, n).value)
  {
    hide Commit;
    CommitByKey(st.charter, n);
    CommitKeeps(st.charter);
    var m := Commit(st.charter).value.charter.manifest;
    NotAmongNone(st.charter.pendingChanges, n, p);
    var q :| q in st.charter.pendingChanges && IsPendingFor(q, n) && Installs(q, Get(m, n).value);
    OnlyOneFor(st.charter.pendingChanges, n, p, q);
  }
}
