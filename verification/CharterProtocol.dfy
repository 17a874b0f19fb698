/**
 * The charter protocol as a state machine: the current charter, every authority token
 * ever minted, burned or stranded, and the seeds already spent. One step per builder.
 */
module CharterProtocol {
  import opened Wrappers
  import opened OrderedMap
  import opened CharterModel

  datatype State = State(
    charter: Charter,
    minted: multiset<string>,
    burned: multiset<string>,
    stranded: multiset<string>,
    spent: set<TxOutputId>)

  datatype Op =
    | Queue(kind: ChangeKind, options: QueueOptions, seed: TxOutputId)
    | Install(options: QueueOptions, seed: TxOutputId)
    | CommitPending
    | AddEntry(key: string, entry: ManifestEntry)
    | UpdateMint(forced: bool, scriptHash: Option<string>, config: string, seed: TxOutputId)
    | UpdateSpend(forced: bool, scriptHash: Option<string>, config: string, seed: TxOutputId)
    | AddNamed(name: string, uutName: string, scriptHash: Option<string>, config: string, seed: TxOutputId)

  function SeedOf(op: Op): Option<TxOutputId> {
    if op.CommitPending? || op.AddEntry? then None else Some(op.seed)
  }

  function EffectOf(h: SeedHash, c: Charter, op: Op): Result<Effect, Error> {
    match op
    case Queue(kind, o, seed) => QueueChange(h, c, kind, o, seed)
    case Install(o, seed) => InstallPolicy(h, c, o, seed)
    case CommitPending => Commit(c)
    case AddEntry(key, entry) => AddManifestEntry(c, key, entry)
    case UpdateMint(forced, v, cfg, seed) => Ok(UpdateMintDelegate(h, c, forced, v, cfg, seed))
    case UpdateSpend(forced, v, cfg, seed) => Ok(UpdateSpendDelegate(h, c, forced, v, cfg, seed))
    case AddNamed(name, uutName, v, cfg, seed) => AddNamedDelegate(h, c, name, uutName, v, cfg, seed)
  }

  /** One builder, run and submitted against the current charter. A utxo is spent only once. */
  function Step(h: SeedHash, st: State, op: Op): Result<State, Error> {
    var seed := SeedOf(op);
    if seed.Some? && seed.value in st.spent then Err(SeedAlreadySpent)
    else
      var e :- EffectOf(h, st.charter, op);
      Ok(Apply(st, e, seed))
  }

  /** The state after a transaction: its effect booked, its seed spent. */
  function Apply(st: State, e: Effect, seed: Option<TxOutputId>): State {
    State(e.charter, st.minted + e.minted, st.burned + e.burned, st.stranded + e.stranded,
          if seed.Some? then st.spent + {seed.value} else st.spent)
  }

  /** A run in which builders may throw: a throwing builder leaves the state as it was. */
  function Run(h: SeedHash, st: State, ops: seq<Op>): State
    decreases |ops|
  {
    if ops == [] then st
    else Run(h, match Step(h, st, ops[0]) case Ok(next) => next case Err(_) => st, ops[1..])
  }

  /** A run that stops at the first builder that throws. */
  function RunAll(h: SeedHash, st: State, ops: seq<Op>): Result<State, Error>
    decreases |ops|
  {
    if ops == [] then Ok(st)
    else
      var next :- Step(h, st, ops[0]);
      RunAll(h, next, ops[1..])
  }

  /** A delegate's validator, if it has one, and its configuration. */
  datatype Script = Script(hash: Option<string>, config: string)

  /** The three delegates a charter starts with. */
  datatype Scripts = Scripts(gov: Script, mint: Script, spend: Script)

  /** The charter-minting transaction: one seed, three authority tokens, nothing else. */
  function Bootstrap(h: SeedHash, seed: TxOutputId, s: Scripts): State {
    var gov := UutNameOf(h, "capoGov", seed);
    var mint := UutNameOf(h, "mintDgt", seed);
    var spend := UutNameOf(h, "spendDgt", seed);
    State(Charter(Link(spend, s.spend.hash, s.spend.config), Link(mint, s.mint.hash, s.mint.config),
                  Link(gov, s.gov.hash, s.gov.config), [], [], []),
          multiset{gov, mint, spend}, multiset{}, multiset{}, {seed})
  }

  // ----- the tokens a charter accounts for -----

  function LinkTokens(links: Entries<Link>): multiset<string> {
    if links == [] then multiset{} else multiset{links[0].1.uutName} + LinkTokens(links[1..])
  }

  function PolicyTokens(m: Entries<ManifestEntry>): multiset<string> {
    if m == [] then multiset{}
    else (if IsPolicy(m[0].1) then multiset{m[0].1.tokenName} else multiset{}) + PolicyTokens(m[1..])
  }

  function PendingTokens(pending: seq<PendingChange>): multiset<string> {
    if pending == [] then multiset{}
    else (if pending[0].DelegateChange? && pending[0].dgtLink.Some?
          then multiset{pending[0].dgtLink.value.uutName} else multiset{}) + PendingTokens(pending[1..])
  }

  /** Every authority token the charter points at. */
  function Tokens(c: Charter): multiset<string> {
    multiset{c.govAuthorityLink.uutName, c.mintDelegateLink.uutName, c.spendDelegateLink.uutName} + OtherTokens(c)
  }

  function OtherTokens(c: Charter): multiset<string> {
    LinkTokens(c.otherNamedDelegates) + PolicyTokens(c.manifest) + PendingTokens(c.pendingChanges)
  }

  // ----- the invariant -----

  /** The change can be committed: it is an Add or Replace that the commit loop accepts. */
  predicate Committable(p: PendingChange, m: Entries<ManifestEntry>) {
    && p.DelegateChange?
    && p.role.DgDataRole? && p.role.typeName != ""
    && p.dgtLink.Some?
    && match p.action
       case Add(_, _, idPrefix) => idPrefix != "" && !Has(m, p.role.typeName)
       case Replace(_, _, idPrefix, replaced) =>
         idPrefix != "" && HasPolicy(m, p.role.typeName) && replaced == Get(m, p.role.typeName).value.tokenName
       case Remove => false
  }

  predicate AllCommittable(pending: seq<PendingChange>, m: Entries<ManifestEntry>) {
    pending != [] ==> Committable(pending[0], m) && AllCommittable(pending[1..], m)
  }

  /** No pending change is about the named policy. */
  predicate NoneFor(pending: seq<PendingChange>, name: string) {
    pending != [] ==> !IsPendingFor(pending[0], name) && NoneFor(pending[1..], name)
  }

  predicate DistinctNames(pending: seq<PendingChange>) {
    pending != [] ==>
      (pending[0].DelegateChange? && pending[0].role.DgDataRole? ==> NoneFor(pending[1..], pending[0].role.typeName)) &&
      DistinctNames(pending[1..])
  }

  /** Every data policy is one of this Capo's own tokens, named by its link. */
  predicate OwnPolicies(m: Entries<ManifestEntry>) {
    m != [] ==>
      (IsPolicy(m[0].1) ==> m[0].1.mph.None? && m[0].1.entryType.policyLink.uutName == m[0].1.tokenName) &&
      OwnPolicies(m[1..])
  }

  ghost predicate GoodCharter(c: Charter) {
    && Distinct(c.manifest)
    && Distinct(c.otherNamedDelegates)
    && OwnPolicies(c.manifest)
    && AllCommittable(c.pendingChanges, c.manifest)
    && DistinctNames(c.pendingChanges)
  }

  /** Minted tokens are accounted for: each was burned, is in the charter, or was stranded. */
  ghost predicate Conserved(st: State) {
    st.minted == st.burned + Tokens(st.charter) + st.stranded
  }

  /** No token name is minted twice, and each name comes from a spent seed. */
  ghost predicate UniqueNames(h: SeedHash, st: State) {
    forall t :: t in st.minted ==>
                  st.minted[t] == 1 && exists p, s :: s in st.spent && t == UutNameOf(h, p, s)
  }

  ghost predicate Inv(h: SeedHash, st: State) {
    GoodCharter(st.charter) && Conserved(st) && UniqueNames(h, st)
  }

  /** The seed hash has a fixed length and does not collide on the seeds in use. */
  ghost predicate GoodHash(h: SeedHash, seeds: set<TxOutputId>) {
    && (forall s :: s in seeds ==> |h(s)| == 12)
    && (forall s, t :: s in seeds && t in seeds && h(s) == h(t) ==> s == t)
  }

  function SeedsOf(ops: seq<Op>): set<TxOutputId> {
    if ops == [] then {}
    else (if SeedOf(ops[0]).Some? then {SeedOf(ops[0]).value} else {}) + SeedsOf(ops[1..])
  }
}
