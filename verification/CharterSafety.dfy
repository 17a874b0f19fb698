/**
 * The charter protocol's main results: each builder keeps the invariant, over every run;
 * and, for the two builders that do not check their arguments, exactly when it does.
 */
module CharterSafety {
  import opened Wrappers
  import opened OrderedMap
  import opened CharterModel
  import opened CharterProtocol
  import opened CharterInvariant

  // ----- queueing -----

  /** If a change for the name is pending, it is of the kind that install would queue. */
  lemma {:induction false} PendingKindIsForced(pending: seq<PendingChange>, m: Entries<ManifestEntry>, name: string)
    requires AllCommittable(pending, m) && !NoneFor(pending, name)
    ensures Has(m, name) ==> HasPolicy(m, name)
    ensures FindPending(pending, if HasPolicy(m, name) then ReplaceChange else AddChange, name)
  {
    if !IsPendingFor(pending[0], name) {
      PendingKindIsForced(pending[1..], m, name);
    }
  }

  lemma {:induction false} FindPendingSound(pending: seq<PendingChange>, kind: ChangeKind, name: string)
    requires FindPending(pending, kind, name)
    ensures !NoneFor(pending, name)
  {
    if !(IsPendingFor(pending[0], name) && IsKind(pending[0].action, kind)) {
      FindPendingSound(pending[1..], kind, name);
    }
  }

  /** Queueing succeeds exactly when the kind fits the manifest, the scripts call for it, and
      nothing is pending for that policy; install makes the kind fit. */
  lemma QueueSucceedsExactly(h: SeedHash, c: Charter, kind: ChangeKind, o: QueueOptions, seed: TxOutputId)
    requires GoodCharter(c)
    ensures QueueChange(h, c, kind, o, seed).Ok? <==>
            && |if o.uutName == "" then "dgPol" else o.uutName| <= 13
            && NoneFor(c.pendingChanges, o.typeName)
            && match kind
               case AddChange => !Has(c.manifest, o.typeName)
               case ReplaceChange =>
                 HasPolicy(c.manifest, o.typeName) &&
                 CheckScripts(Get(c.manifest, o.typeName).value.entryType.policyLink.validatorHash, o.scripts).Ok?
  {
    FindPolicyIsLookup(c.manifest, o.typeName);
    if HasPolicy(c.manifest, o.typeName) {
      OwnPolicyAt(c.manifest, o.typeName);
    }
    if !NoneFor(c.pendingChanges, o.typeName) {
      PendingKindIsForced(c.pendingChanges, c.manifest, o.typeName);
    } else if FindPending(c.pendingChanges, kind, o.typeName) {
      FindPendingSound(c.pendingChanges, kind, o.typeName);
      assert false;
    }
  }

  /** The scripts call for a replacement exactly when the bundle knows the script on chain, or knows
      none where there is none, and would put another in its place. */
  lemma ReplacementCalledForExactly(onchain: Option<string>, scripts: ScriptView)
    ensures CheckScripts(onchain, scripts).Ok? <==>
            scripts.previous == onchain && (onchain.Some? ==> scripts.next != onchain)
    ensures CheckScripts(onchain, scripts) == Err(PolicyUpToDate) <==>
            onchain.Some? && (scripts.previous.None? || (scripts.previous == onchain && scripts.next == onchain))
  {
  }

  /** Install's own choice never trips the kind checks. */
  lemma InstallNeverTripsKindChecks(h: SeedHash, c: Charter, o: QueueOptions, seed: TxOutputId)
    requires GoodCharter(c)
    ensures InstallPolicy(h, c, o, seed).Err? ==>
              InstallPolicy(h, c, o, seed).error !in {AddOfExisting, ReplaceOfMissing, ForeignMintingPolicy}
  {
    FindPolicyIsLookup(c.manifest, o.typeName);
    if HasPolicy(c.manifest, o.typeName) {
      OwnPolicyAt(c.manifest, o.typeName);
    }
  }

  lemma QueuedChange(h: SeedHash, c: Charter, kind: ChangeKind, o: QueueOptions, seed: TxOutputId)
    requires GoodCharter(c) && QueueChange(h, c, kind, o, seed).Ok?
    ensures var e := QueueChange(h, c, kind, o, seed).value;
            var p := MkPending(h, kind, FindPolicy(c.manifest, o.typeName), o, seed);
            && e.charter == c.(pendingChanges := [p] + c.pendingChanges)
            && NoneFor(c.pendingChanges, o.typeName)
            && (Committable(p, c.manifest) <==> o.typeName != "" && o.idPrefix != "")
            && e.minted == multiset{UutNameOf(h, Purpose(o), seed)}
            && e.burned == e.stranded == multiset{}
            && Tokens(e.charter) == Tokens(c) + e.minted
  {
    QueueSucceedsExactly(h, c, kind, o, seed);
    FindPolicyIsLookup(c.manifest, o.typeName);
    var p := MkPending(h, kind, FindPolicy(c.manifest, o.typeName), o, seed);
    assert ([p] + c.pendingChanges)[1..] == c.pendingChanges;
  }

  /** A queued change keeps the charter good exactly when its type name and prefix are non-empty. */
  lemma QueueKeepsExactly(h: SeedHash, c: Charter, kind: ChangeKind, o: QueueOptions, seed: TxOutputId)
    requires GoodCharter(c) && QueueChange(h, c, kind, o, seed).Ok?
    ensures GoodCharter(QueueChange(h, c, kind, o, seed).value.charter) <==> o.typeName != "" && o.idPrefix != ""
  {
    QueuedChange(h, c, kind, o, seed);
    var p := MkPending(h, kind, FindPolicy(c.manifest, o.typeName), o, seed);
    assert ([p] + c.pendingChanges)[1..] == c.pendingChanges;
  }

  // ----- committing -----

  lemma {:induction false} OwnPoliciesOfConcat(a: Entries<ManifestEntry>, b: Entries<ManifestEntry>)
    requires OwnPolicies(a) && OwnPolicies(b)
    ensures OwnPolicies(a + b)
  {
    if a == [] {
      assert a + b == b;
    } else {
      assert (a + b)[1..] == a[1..] + b;
      OwnPoliciesOfConcat(a[1..], b);
    }
  }

  lemma {:induction false} NewEntriesAreOwn(pending: seq<PendingChange>, m: Entries<ManifestEntry>)
    requires AllCommittable(pending, m)
    ensures OwnPolicies(NewEntries(pending, m))
  {
    if pending != [] {
      NewEntriesAreOwn(pending[1..], m);
      assert NewEntries(pending, m)[1..] == NewEntries(pending[1..], m);
    }
  }

  lemma {:induction false} WithoutKeepsOwn(m: Entries<ManifestEntry>, news: Entries<ManifestEntry>)
    requires OwnPolicies(m)
    ensures OwnPolicies(Without(m, news))
  {
    if m != [] {
      WithoutKeepsOwn(m[1..], news);
      if !Has(news, m[0].0) {
        assert Without(m, news)[1..] == Without(m[1..], news);
      }
    }
  }

  /** The commit succeeds, leaves nothing pending, and burns just the tokens it drops. */
  lemma CommitKeeps(c: Charter)
    requires GoodCharter(c)
    ensures Commit(c).Ok?
    ensures GoodCharter(Commit(c).value.charter)
    ensures Commit(c).value.charter.pendingChanges == []
    ensures Tokens(c) == Tokens(Commit(c).value.charter) + Commit(c).value.burned
    ensures Commit(c).value.minted == Commit(c).value.stranded == multiset{}
  {
    var news := NewEntries(c.pendingChanges, c.manifest);
    CommitSucceeds(c);
    CommittedManifestDistinct(c);
    NewEntriesAreOwn(c.pendingChanges, c.manifest);
    WithoutKeepsOwn(c.manifest, news);
    OwnPoliciesOfConcat(news, Without(c.manifest, news));
    PolicyTokensOfConcat(news, Without(c.manifest, news));
    NewEntriesCarryPendingTokens(c.pendingChanges, c.manifest);
  }

  // ----- token-reference entries -----

  lemma {:induction false} PutTokenRef(m: Entries<ManifestEntry>, key: string, entry: ManifestEntry)
    requires !IsPolicy(entry)
    ensures PolicyTokens(Put(m, key, entry)) +
            (if HasPolicy(m, key) then multiset{Get(m, key).value.tokenName} else multiset{}) == PolicyTokens(m)
    ensures OwnPolicies(m) ==> OwnPolicies(Put(m, key, entry))
  {
    if m != [] {
      if m[0].0 == key {
        assert Put(m, key, entry)[1..] == m[1..];
      } else {
        PutTokenRef(m[1..], key, entry);
        assert Put(m, key, entry)[1..] == Put(m[1..], key, entry);
      }
    }
  }

  lemma {:induction false} CommittableAfterPut(pending: seq<PendingChange>, m: Entries<ManifestEntry>, key: string,
                                               entry: ManifestEntry)
    requires AllCommittable(pending, m) && !IsPolicy(entry)
    ensures AllCommittable(pending, Put(m, key, entry)) <==> NoneFor(pending, key)
  {
    if pending != [] {
      CommittableAfterPut(pending[1..], m, key, entry);
      GetOfPut(m, key, entry, pending[0].role.typeName);
    }
  }

  /** Adding a token-reference entry keeps the charter good and its tokens accounted for exactly
      when the key neither names a policy nor a policy about to be added. */
  lemma AddEntryKeepsExactly(c: Charter, key: string, entry: ManifestEntry)
    requires GoodCharter(c) && AddManifestEntry(c, key, entry).Ok?
    ensures var d := AddManifestEntry(c, key, entry).value.charter;
            (GoodCharter(d) && Tokens(d) == Tokens(c)) <==>
            (!HasPolicy(c.manifest, key) && NoneFor(c.pendingChanges, key))
  {
    FromEntriesSnoc(c.manifest, key, entry);
    PutKeepsDistinct(c.manifest, key, entry);
    PutTokenRef(c.manifest, key, entry);
    CommittableAfterPut(c.pendingChanges, c.manifest, key, entry);
    var d := AddManifestEntry(c, key, entry).value.charter;
    if HasPolicy(c.manifest, key) {
      var t := Get(c.manifest, key).value.tokenName;
      assert Tokens(d)[t] + 1 == Tokens(c)[t];
    }
  }

  // ----- delegate links -----

  lemma {:induction false} PutLink(links: Entries<Link>, key: string, link: Link)
    ensures LinkTokens(Put(links, key, link)) +
            (if Has(links, key) then multiset{Get(links, key).value.uutName} else multiset{}) ==
            LinkTokens(links) + multiset{link.uutName}
  {
    if links != [] {
      if links[0].0 == key {
        assert Put(links, key, link)[1..] == links[1..];
      } else {
        PutLink(links[1..], key, link);
        assert Put(links, key, link)[1..] == Put(links[1..], key, link);
        var first, rest := multiset{links[0].1.uutName}, LinkTokens(Put(links[1..], key, link));
        var taken := if Has(links, key) then multiset{Get(links, key).value.uutName} else multiset{};
        assert (first + rest) + taken == first + (rest + taken);
      }
    }
  }

  // ----- one step -----

  /** What a caller has to see to, as the builder does not check it. */
  predicate WellUsed(c: Charter, op: Op) {
    match op
    case Queue(_, o, _) => o.typeName != "" && o.idPrefix != ""
    case Install(o, _) => o.typeName != "" && o.idPrefix != ""
    case AddEntry(key, _) => !HasPolicy(c.manifest, key) && NoneFor(c.pendingChanges, key)
    case _ => true
  }

  function PurposeOf(op: Op): string {
    match op
    case Queue(_, o, _) => Purpose(o)
    case Install(o, _) => Purpose(o)
    case UpdateMint(_, _, _, _) => "mintDgt"
    case UpdateSpend(_, _, _, _) => "spendDgt"
    case AddNamed(name, uutName, _, _, _) => if uutName == "" then name else uutName
    case _ => ""
  }

  /** The tokens an op mints: one, named by its purpose and seed, or none. */
  function MintOf(h: SeedHash, op: Op): multiset<string> {
    if SeedOf(op).None? then multiset{} else multiset{UutNameOf(h, PurposeOf(op), SeedOf(op).value)}
  }

  /** The effect keeps the charter good and accounts for every token it moves. */
  ghost predicate Balanced(c: Charter, e: Effect) {
    GoodCharter(e.charter) && Tokens(c) + e.minted == Tokens(e.charter) + e.burned + e.stranded
  }

  // Sums of multisets, kept apart from the definitions they are used on.

  lemma SwapMint(gov: string, mint: string, spend: string, next: string, rest: multiset<string>)
    ensures multiset{gov, mint, spend} + rest + multiset{next} == multiset{gov, next, spend} + rest + multiset{mint}
  {
  }

  lemma SwapSpend(gov: string, mint: string, spend: string, next: string, rest: multiset<string>)
    ensures multiset{gov, mint, spend} + rest + multiset{next} == multiset{gov, mint, next} + rest + multiset{spend}
  {
  }

  lemma RegroupNamed(core: multiset<string>, x: multiset<string>, y: multiset<string>, p: multiset<string>,
                     q: multiset<string>, minted: multiset<string>, stranded: multiset<string>)
    requires y + stranded == x + minted
    ensures core + (x + p + q) + minted == core + (y + p + q) + multiset{} + stranded
  {
    forall k ensures (core + (x + p + q) + minted)[k] == (core + (y + p + q) + multiset{} + stranded)[k] {
      assert (y + stranded)[k] == (x + minted)[k];
    }
  }

  lemma Book(minted: multiset<string>, burned: multiset<string>, stranded: multiset<string>,
             before: multiset<string>, after: multiset<string>,
             m: multiset<string>, b: multiset<string>, s: multiset<string>)
    requires minted == burned + before + stranded
    requires before + m == after + b + s
    ensures minted + m == (burned + b) + after + (stranded + s)
  {
    forall k ensures (minted + m)[k] == ((burned + b) + after + (stranded + s))[k] {
      assert (before + m)[k] == (after + b + s)[k];
    }
  }

  lemma QueueBalanced(h: SeedHash, c: Charter, kind: ChangeKind, o: QueueOptions, seed: TxOutputId)
    requires GoodCharter(c) && o.typeName != "" && o.idPrefix != "" && QueueChange(h, c, kind, o, seed).Ok?
    ensures Balanced(c, QueueChange(h, c, kind, o, seed).value)
    ensures QueueChange(h, c, kind, o, seed).value.minted == multiset{UutNameOf(h, Purpose(o), seed)}
  {
    hide QueueChange, GoodCharter, Tokens;
    QueuedChange(h, c, kind, o, seed);
    QueueKeepsExactly(h, c, kind, o, seed);
  }

  lemma NamedBalanced(h: SeedHash, c: Charter, name: string, uutName: string, scriptHash: Option<string>,
                      config: string, seed: TxOutputId)
    requires GoodCharter(c) && AddNamedDelegate(h, c, name, uutName, scriptHash, config, seed).Ok?
    ensures Balanced(c, AddNamedDelegate(h, c, name, uutName, scriptHash, config, seed).value)
    ensures AddNamedDelegate(h, c, name, uutName, scriptHash, config, seed).value.minted ==
            multiset{UutNameOf(h, if uutName == "" then name else uutName, seed)}
  {
    var purpose := if uutName == "" then name else uutName;
    var link := Link(UutNameOf(h, purpose, seed), scriptHash, config);
    FromEntriesSnoc(c.otherNamedDelegates, name, link);
    PutKeepsDistinct(c.otherNamedDelegates, name, link);
    PutLink(c.otherNamedDelegates, name, link);
    var e := AddNamedDelegate(h, c, name, uutName, scriptHash, config, seed).value;
    var core := multiset{c.govAuthorityLink.uutName, c.mintDelegateLink.uutName, c.spendDelegateLink.uutName};
    assert Tokens(c) + e.minted == Tokens(e.charter) + e.burned + e.stranded by {
      hide PolicyTokens, PendingTokens, LinkTokens;
      var L, M, P, Q := LinkTokens(c.otherNamedDelegates), LinkTokens(e.charter.otherNamedDelegates),
        PolicyTokens(c.manifest), PendingTokens(c.pendingChanges);
      RegroupNamed(core, L, M, P, Q, e.minted, e.stranded);
    }
  }

  lemma SameOtherTokens(c: Charter, d: Charter)
    requires c.otherNamedDelegates == d.otherNamedDelegates
    requires c.manifest == d.manifest && c.pendingChanges == d.pendingChanges
    ensures OtherTokens(c) == OtherTokens(d)
  {
  }

  lemma SameGoodCharter(c: Charter, d: Charter)
    requires GoodCharter(c)
    requires c.otherNamedDelegates == d.otherNamedDelegates
    requires c.manifest == d.manifest && c.pendingChanges == d.pendingChanges
    ensures GoodCharter(d)
  {
  }

  lemma MintUpdateBalanced(h: SeedHash, c: Charter, forced: bool, scriptHash: Option<string>, config: string,
                           seed: TxOutputId)
    requires GoodCharter(c)
    ensures Balanced(c, UpdateMintDelegate(h, c, forced, scriptHash, config, seed))
    ensures UpdateMintDelegate(h, c, forced, scriptHash, config, seed).minted == multiset{UutNameOf(h, "mintDgt", seed)}
  {
    hide OtherTokens, GoodCharter, UutNameOf;
    var e := UpdateMintDelegate(h, c, forced, scriptHash, config, seed);
    SwapMint(c.govAuthorityLink.uutName, c.mintDelegateLink.uutName, c.spendDelegateLink.uutName,
             UutNameOf(h, "mintDgt", seed), OtherTokens(c));
    SameOtherTokens(c, e.charter);
    SameGoodCharter(c, e.charter);
  }

  lemma SpendUpdateBalanced(h: SeedHash, c: Charter, forced: bool, scriptHash: Option<string>, config: string,
                            seed: TxOutputId)
    requires GoodCharter(c)
    ensures Balanced(c, UpdateSpendDelegate(h, c, forced, scriptHash, config, seed))
    ensures UpdateSpendDelegate(h, c, forced, scriptHash, config, seed).minted == multiset{UutNameOf(h, "spendDgt", seed)}
  {
    hide OtherTokens, GoodCharter, UutNameOf;
    var e := UpdateSpendDelegate(h, c, forced, scriptHash, config, seed);
    SwapSpend(c.govAuthorityLink.uutName, c.mintDelegateLink.uutName, c.spendDelegateLink.uutName,
              UutNameOf(h, "spendDgt", seed), OtherTokens(c));
    SameOtherTokens(c, e.charter);
    SameGoodCharter(c, e.charter);
  }

  lemma AddEntryBalanced(c: Charter, key: string, entry: ManifestEntry)
    requires GoodCharter(c) && AddManifestEntry(c, key, entry).Ok?
    requires !HasPolicy(c.manifest, key) && NoneFor(c.pendingChanges, key)
    ensures Balanced(c, AddManifestEntry(c, key, entry).value)
    ensures AddManifestEntry(c, key, entry).value.minted == multiset{}
  {
    hide GoodCharter, Tokens;
    AddEntryKeepsExactly(c, key, entry);
  }

  lemma CommitBalanced(c: Charter)
    requires GoodCharter(c)
    ensures Commit(c).Ok? && Balanced(c, Commit(c).value) && Commit(c).value.minted == multiset{}
  {
    hide Commit, Tokens, GoodCharter;
    CommitKeeps(c);
    var e := Commit(c).value;
    NothingMinted(Tokens(c), Tokens(e.charter), e.burned);
  }

  lemma NothingMinted(before: multiset<string>, after: multiset<string>, burned: multiset<string>)
    requires before == after + burned
    ensures before + multiset{} == after + burned + multiset{}
  {
  }

  lemma QueueEffectKeeps(h: SeedHash, c: Charter, op: Op)
    requires (op.Queue? || op.Install?) && GoodCharter(c) && WellUsed(c, op) && EffectOf(h, c, op).Ok?
    ensures Balanced(c, EffectOf(h, c, op).value) && EffectOf(h, c, op).value.minted == MintOf(h, op)
  {
    hide QueueChange, Balanced, GoodCharter, UutNameOf, FindPolicy, Purpose;
    var replace := op.Install? && FindPolicy(c.manifest, op.options.typeName).Some?;
    QueueBalanced(h, c, if op.Queue? then op.kind else if replace then ReplaceChange else AddChange, op.options, op.seed);
  }

  lemma DelegateEffectKeeps(h: SeedHash, c: Charter, op: Op)
    requires (op.UpdateMint? || op.UpdateSpend? || op.AddNamed?) && GoodCharter(c) && EffectOf(h, c, op).Ok?
    ensures Balanced(c, EffectOf(h, c, op).value) && EffectOf(h, c, op).value.minted == MintOf(h, op)
  {
    hide AddNamedDelegate, UpdateMintDelegate, UpdateSpendDelegate, Balanced, GoodCharter, UutNameOf;
    match op
    case UpdateMint(forced, v, config, seed) => MintUpdateBalanced(h, c, forced, v, config, seed);
    case UpdateSpend(forced, v, config, seed) => SpendUpdateBalanced(h, c, forced, v, config, seed);
    case AddNamed(name, uutName, v, config, seed) => NamedBalanced(h, c, name, uutName, v, config, seed);
    case _ =>
  }

  /** Every builder's effect is balanced, and mints at most the one token it names. */
  lemma EffectKeeps(h: SeedHash, c: Charter, op: Op)
    requires GoodCharter(c) && WellUsed(c, op) && EffectOf(h, c, op).Ok?
    ensures Balanced(c, EffectOf(h, c, op).value)
    ensures EffectOf(h, c, op).value.minted == MintOf(h, op)
  {
    hide Commit, AddManifestEntry, Balanced, GoodCharter, HasPolicy, NoneFor;
    if op.CommitPending? {
      CommitBalanced(c);
    } else if op.AddEntry? {
      AddEntryBalanced(c, op.key, op.entry);
    } else {
      hide EffectOf, MintOf;
      if op.Queue? || op.Install? {
        QueueEffectKeeps(h, c, op);
      } else {
        DelegateEffectKeeps(h, c, op);
      }
    }
  }

  /** Booking a balanced effect whose only new name is fresh keeps the invariant. */
  lemma ApplyKeepsInv(h: SeedHash, st: State, e: Effect, purpose: string, seed: Option<TxOutputId>)
    requires Inv(h, st) && Balanced(st.charter, e)
    requires seed.None? ==> e.minted == multiset{}
    requires seed.Some? ==> e.minted == multiset{UutNameOf(h, purpose, seed.value)}
    requires seed.Some? ==> seed.value !in st.spent && GoodHash(h, st.spent + {seed.value})
    ensures Inv(h, Apply(st, e, seed))
  {
    var next := Apply(st, e, seed);
    Book(st.minted, st.burned, st.stranded, Tokens(st.charter), Tokens(e.charter), e.minted, e.burned, e.stranded);
    assert Conserved(next);
    if seed.Some? {
      FreshName(h, st, purpose, seed.value);
    }
    forall t | t in next.minted
      ensures next.minted[t] == 1 && exists p, s :: s in next.spent && t == UutNameOf(h, p, s)
    {
      if t in st.minted {
        var p, s :| s in st.spent && t == UutNameOf(h, p, s);
        assert s in next.spent;
      } else {
        assert seed.value in next.spent && t == UutNameOf(h, purpose, seed.value);
      }
    }
  }

  lemma StepIsApply(h: SeedHash, st: State, op: Op)
    requires Step(h, st, op).Ok?
    ensures EffectOf(h, st.charter, op).Ok?
    ensures Step(h, st, op).value == Apply(st, EffectOf(h, st.charter, op).value, SeedOf(op))
    ensures SeedOf(op).Some? ==> SeedOf(op).value !in st.spent
  {
  }

  /** Every builder keeps the invariant. */
  lemma StepKeepsInv(h: SeedHash, st: State, op: Op)
    requires Inv(h, st) && WellUsed(st.charter, op) && Step(h, st, op).Ok?
    requires SeedOf(op).Some? ==> GoodHash(h, st.spent + {SeedOf(op).value})
    ensures Inv(h, Step(h, st, op).value)
  {
    StepIsApply(h, st, op);
    EffectKeeps(h, st.charter, op);
    ApplyKeepsInv(h, st, EffectOf(h, st.charter, op).value, PurposeOf(op), SeedOf(op));
  }

  // ----- whole runs -----

  /** Each builder of the run is well used at its turn. */
  predicate RunWellUsed(h: SeedHash, st: State, ops: seq<Op>)
    decreases |ops|
  {
    ops != [] ==>
      match Step(h, st, ops[0])
      case Ok(next) => WellUsed(st.charter, ops[0]) && RunWellUsed(h, next, ops[1..])
      case Err(_) => RunWellUsed(h, st, ops[1..])
  }

  lemma GoodHashOnFewer(h: SeedHash, seeds: set<TxOutputId>, more: set<TxOutputId>)
    requires GoodHash(h, more) && seeds <= more
    ensures GoodHash(h, seeds)
  {
  }

  lemma {:induction false} RunKeepsInv(h: SeedHash, st: State, ops: seq<Op>)
    requires Inv(h, st) && RunWellUsed(h, st, ops)
    requires GoodHash(h, st.spent + SeedsOf(ops))
    ensures Inv(h, Run(h, st, ops))
    decreases |ops|
  {
    if ops != [] {
      var op, rest := ops[0], ops[1..];
      var next := if Step(h, st, op).Ok? then Step(h, st, op).value else st;
      if Step(h, st, op).Ok? {
        StepIsApply(h, st, op);
        if SeedOf(op).Some? {
          GoodHashOnFewer(h, st.spent + {SeedOf(op).value}, st.spent + SeedsOf(ops));
        }
        StepKeepsInv(h, st, op);
      }
      GoodHashOnFewer(h, next.spent + SeedsOf(rest), st.spent + SeedsOf(ops));
      RunKeepsInv(h, next, rest);
    }
  }

  /** The link has this token, and the script that was given for it. */
  predicate IsLink(link: Link, token: string, script: Script) {
    link.uutName == token && link.validatorHash == script.hash && link.config == script.config
  }

  lemma BootstrapInv(h: SeedHash, seed: TxOutputId, s: Scripts)
    requires GoodHash(h, {seed})
    ensures Inv(h, Bootstrap(h, seed, s))
    ensures var st := Bootstrap(h, seed, s);
            && IsLink(st.charter.govAuthorityLink, "capoGov-" + h(seed), s.gov)
            && IsLink(st.charter.mintDelegateLink, "mintDgt-" + h(seed), s.mint)
            && IsLink(st.charter.spendDelegateLink, "spendDgt-" + h(seed), s.spend)
            && st.charter.otherNamedDelegates == [] && st.charter.manifest == [] && st.charter.pendingChanges == []
            && st.minted == Tokens(st.charter) && st.burned == st.stranded == multiset{} && st.spent == {seed}
  {
    var st := Bootstrap(h, seed, s);
    var gov, mint, spend := UutNameOf(h, "capoGov", seed), UutNameOf(h, "mintDgt", seed), UutNameOf(h, "spendDgt", seed);
    if gov == mint { UutNameInjective(h, "capoGov", seed, "mintDgt", seed); }
    if gov == spend { UutNameInjective(h, "capoGov", seed, "spendDgt", seed); }
    if mint == spend { UutNameInjective(h, "mintDgt", seed, "spendDgt", seed); }
    assert seed in st.spent;
  }

  /** Over every run from a fresh charter: tokens are conserved, no name is minted twice, and
      the pending changes can be committed at any time. */
  lemma {:induction false} EveryRunIsSafe(h: SeedHash, seed: TxOutputId, s: Scripts, ops: seq<Op>)
    requires RunWellUsed(h, Bootstrap(h, seed, s), ops)
    requires GoodHash(h, {seed} + SeedsOf(ops))
    ensures var st := Run(h, Bootstrap(h, seed, s), ops);
            && st.minted == st.burned + Tokens(st.charter) + st.stranded
            && (forall t :: t in st.minted ==> st.minted[t] == 1)
            && GoodCharter(st.charter)
            && Step(h, st, CommitPending).Ok?
            && Step(h, st, CommitPending).value.charter.pendingChanges == []
  {
    hide Commit, Tokens, GoodCharter, Run, RunWellUsed;
    BootstrapInv(h, seed, s);
    assert Bootstrap(h, seed, s).spent == {seed};
    RunKeepsInv(h, Bootstrap(h, seed, s), ops);
    CommitKeeps(Run(h, Bootstrap(h, seed, s), ops).charter);
  }
}
