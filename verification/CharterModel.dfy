/**
 * The Capo's charter record and the builders that change it, as functions from the
 * current charter to the next one together with the authority tokens they mint,
 * burn or strand. A builder that throws yields `Err` and produces no transaction.
 */
module CharterModel {
  import opened Wrappers
  import opened OrderedMap

  /** The output id of the seed utxo that a token-minting transaction spends. */
  datatype TxOutputId = TxOutputId(txId: string, index: nat)

  /** The 6-byte hash of a seed, in hex. */
  type SeedHash = TxOutputId -> string

  /** A delegate link as stored on chain. */
  datatype Link = Link(uutName: string, validatorHash: Option<string>, config: string)

  datatype EntryType =
    | NamedTokenRef
    | DgDataPolicy(policyLink: Link, idPrefix: string, refCount: nat)
    | DelegateThreads
    | MerkleMembership
    | MerkleStateRoot

  datatype MintingPolicy = CapoPolicy | OtherPolicy(hash: string)

  datatype ManifestEntry = ManifestEntry(tokenName: string, mph: Option<MintingPolicy>, entryType: EntryType)

  datatype Action =
    | Add(seed: TxOutputId, purpose: string, idPrefix: string)
    | Replace(seed: TxOutputId, purpose: string, idPrefix: string, replacesDgt: string)
    | Remove

  datatype Role = DgDataRole(typeName: string) | OtherRole

  datatype PendingChange =
    | DelegateChange(action: Action, role: Role, dgtLink: Option<Link>)
    | OtherManifestChange

  datatype Charter = Charter(
    spendDelegateLink: Link,
    mintDelegateLink: Link,
    govAuthorityLink: Link,
    otherNamedDelegates: Entries<Link>,
    manifest: Entries<ManifestEntry>,
    pendingChanges: seq<PendingChange>)

  /** Which change a caller asks to have queued. */
  datatype ChangeKind = AddChange | ReplaceChange

  /** What the delegate's script bundle reports about the on-chain and the next script. */
  datatype ScriptView = ScriptView(previous: Option<string>, next: Option<string>)

  datatype QueueOptions = QueueOptions(
    typeName: string, idPrefix: string, uutName: string, config: string, scripts: ScriptView)

  datatype Error =
    | PurposeTooLong | NotADataPolicy | ForeignMintingPolicy
    | AddOfExisting | ReplaceOfMissing
    | PolicyUpToDate | AlreadyPending | NothingToCommit
    | OnchainHashMissing | OnchainHashMismatch
    | UnsupportedManifestChange | UnsupportedRole | UnsupportedAction | MissingLink | MissingIdPrefix
    | AddConflict | ReplaceMissing | UnsupportedEntryType
    | SeedAlreadySpent | NoSeed | NoSettingsPolicy | NoSettingsRecord | NoInitialSettings

  /** The errors derived from `TxNotNeededError`: the transaction is skipped, not failed. */
  predicate MeansNotNeeded(e: Error) {
    e.PolicyUpToDate? || e.AlreadyPending? || e.NothingToCommit?
  }

  /** What one transaction does to the charter and to the authority tokens. */
  datatype Effect = Effect(
    charter: Charter,
    minted: multiset<string>,
    burned: multiset<string>,
    stranded: multiset<string>)

  const MAX_PURPOSE := 13
  const DEFAULT_PURPOSE := "dgPol"

  function UutNameOf(h: SeedHash, purpose: string, seed: TxOutputId): string {
    purpose + "-" + h(seed)
  }

  // ----- lookups -----

  predicate IsPolicy(e: ManifestEntry) {
    e.entryType.DgDataPolicy?
  }

  predicate HasPolicy(m: Entries<ManifestEntry>, name: string) {
    Has(m, name) && IsPolicy(Get(m, name).value)
  }

  /** `hasPolicyInManifest`: the first entry that has the name and is a data policy. */
  function FindPolicy(m: Entries<ManifestEntry>, name: string): (r: Option<ManifestEntry>)
    ensures r.Some? ==> IsPolicy(r.value)
  {
    if m == [] then None
    else if IsPolicy(m[0].1) && m[0].0 == name then Some(m[0].1)
    else FindPolicy(m[1..], name)
  }

  /** `getDgDataController` with `optional`: refuses an entry that is no data policy. */
  function FindController(m: Entries<ManifestEntry>, name: string): Result<Option<ManifestEntry>, Error> {
    match Get(m, name)
    case None => Ok(None)
    case Some(e) => if IsPolicy(e) then Ok(Some(e)) else Err(NotADataPolicy)
  }

  predicate IsKind(action: Action, kind: ChangeKind) {
    match kind
    case AddChange => action.Add?
    case ReplaceChange => action.Replace?
  }

  predicate IsPendingFor(p: PendingChange, typeName: string) {
    p.DelegateChange? && p.role == DgDataRole(typeName)
  }

  /** `findPendingChange` with the predicate used when queueing: same role, same kind. */
  predicate FindPending(pending: seq<PendingChange>, kind: ChangeKind, typeName: string) {
    pending != [] &&
    ((IsPendingFor(pending[0], typeName) && IsKind(pending[0].action, kind)) || FindPending(pending[1..], kind, typeName))
  }

  // ----- queueing a change -----

  function Purpose(o: QueueOptions): string {
    if o.uutName == "" then DEFAULT_PURPOSE else o.uutName
  }

  /** Whether the scripts of an existing policy call for a replacement. */
  function CheckScripts(onchain: Option<string>, scripts: ScriptView): Result<(), Error> {
    match scripts.previous
    case None => if onchain.Some? then Err(PolicyUpToDate) else Ok(())
    case Some(previous) =>
      if onchain.None? then Err(OnchainHashMissing)
      else if Some(previous) != onchain then Err(OnchainHashMismatch)
      else if scripts.next == onchain then Err(PolicyUpToDate)
      else Ok(())
  }

  function CheckKind(kind: ChangeKind, controller: Option<ManifestEntry>, existing: Option<ManifestEntry>,
                     scripts: ScriptView): Result<(), Error>
    requires existing.Some? ==> IsPolicy(existing.value)
  {
    match existing
    case None => if kind == ReplaceChange then Err(ReplaceOfMissing) else Ok(())
    case Some(e) =>
      if e.mph.Some? then Err(ForeignMintingPolicy)
      else if kind == AddChange then Err(AddOfExisting)
      else if controller.None? then Err(ReplaceOfMissing)
      else CheckScripts(e.entryType.policyLink.validatorHash, scripts)
  }

  function MkAction(kind: ChangeKind, existing: Option<ManifestEntry>, o: QueueOptions, seed: TxOutputId): Action {
    if kind == AddChange || existing.None? then Add(seed, Purpose(o), o.idPrefix)
    else Replace(seed, Purpose(o), o.idPrefix, existing.value.tokenName)
  }

  function MkPending(h: SeedHash, kind: ChangeKind, existing: Option<ManifestEntry>, o: QueueOptions,
                     seed: TxOutputId): PendingChange {
    DelegateChange(MkAction(kind, existing, o, seed), DgDataRole(o.typeName),
                   Some(Link(UutNameOf(h, Purpose(o), seed), o.scripts.next, o.config)))
  }

  /** `mkTxnQueuingDelegateChange`. */
  function QueueChange(h: SeedHash, c: Charter, kind: ChangeKind, o: QueueOptions, seed: TxOutputId)
    : Result<Effect, Error> {
    if |Purpose(o)| > MAX_PURPOSE then Err(PurposeTooLong)
    else
      var controller :- FindController(c.manifest, o.typeName);
      var existing := FindPolicy(c.manifest, o.typeName);
      var _ :- CheckKind(kind, controller, existing, o.scripts);
      if FindPending(c.pendingChanges, kind, o.typeName) then Err(AlreadyPending)
      else
        Ok(Effect(c.(pendingChanges := [MkPending(h, kind, existing, o, seed)] + c.pendingChanges),
                  multiset{UutNameOf(h, Purpose(o), seed)}, multiset{}, multiset{}))
  }

  /** `mkTxnInstallingPolicyDelegate`: Replace when the policy exists, Add otherwise. */
  function InstallPolicy(h: SeedHash, c: Charter, o: QueueOptions, seed: TxOutputId): Result<Effect, Error> {
    QueueChange(h, c, if FindPolicy(c.manifest, o.typeName).Some? then ReplaceChange else AddChange, o, seed)
  }

  // ----- committing the pending changes -----

  datatype Collected = Collected(entries: Entries<ManifestEntry>, replacing: bool)

  /** The manifest entry that one pending change makes, with its name and whether it replaces. */
  function EntryFor(p: PendingChange, manifest: Entries<ManifestEntry>): Result<(string, ManifestEntry, bool), Error> {
    if p.OtherManifestChange? then Err(UnsupportedManifestChange)
    else if !p.role.DgDataRole? || p.role.typeName == "" then Err(UnsupportedRole)
    else if p.dgtLink.None? then Err(MissingLink)
    else
      var name := p.role.typeName;
      match p.action
      case Add(_, _, idPrefix) =>
        if idPrefix == "" then Err(MissingIdPrefix)
        else if Has(manifest, name) then Err(AddConflict)
        else Ok((name, PolicyEntry(p.dgtLink.value, idPrefix), false))
      case Replace(_, _, idPrefix, _) =>
        if idPrefix == "" then Err(MissingIdPrefix)
        else if !Has(manifest, name) then Err(ReplaceMissing)
        else Ok((name, PolicyEntry(p.dgtLink.value, idPrefix), true))
      case Remove => Err(UnsupportedAction)
  }

  function PolicyEntry(link: Link, idPrefix: string): ManifestEntry {
    ManifestEntry(link.uutName, None, DgDataPolicy(link, idPrefix, 1))
  }

  /** The loop over the pending changes, from what it has collected so far. */
  function Collect(pending: seq<PendingChange>, manifest: Entries<ManifestEntry>, acc: Collected)
    : Result<Collected, Error>
    decreases |pending|
  {
    if pending == [] then Ok(acc)
    else
      var e :- EntryFor(pending[0], manifest);
      Collect(pending[1..], manifest, Collected(Put(acc.entries, e.0, e.1), acc.replacing || e.2))
  }

  /** The tokens to burn: one for every entry whose name a new entry takes over. */
  function Replaced(manifest: Entries<ManifestEntry>, news: Entries<ManifestEntry>): Result<seq<string>, Error> {
    if manifest == [] then Ok([])
    else if !Has(news, manifest[0].0) then Replaced(manifest[1..], news)
    else if manifest[0].1.mph.Some? && manifest[0].1.mph.value.OtherPolicy? then Err(ForeignMintingPolicy)
    else
      var rest :- Replaced(manifest[1..], news);
      Ok([manifest[0].1.tokenName] + rest)
  }

  /** New entries first, in the order of the pending changes, then the untouched ones. */
  function Updated(manifest: Entries<ManifestEntry>, news: Entries<ManifestEntry>): Entries<ManifestEntry> {
    FromEntries(news + Without(manifest, news))
  }

  /** `mkTxnCommittingPendingChanges`. */
  function Commit(c: Charter): Result<Effect, Error> {
    var collected :- Collect(c.pendingChanges, c.manifest, Collected([], false));
    var burned :- if collected.replacing then Replaced(c.manifest, collected.entries) else Ok([]);
    Ok(Effect(c.(manifest := Updated(c.manifest, collected.entries), pendingChanges := []),
              multiset{}, multiset(burned), multiset{}))
  }

  // ----- the other charter updates -----

  /** `mkTxnAddManifestEntry`: the key is not checked against the manifest or the pending changes. */
  function AddManifestEntry(c: Charter, key: string, entry: ManifestEntry): Result<Effect, Error> {
    if !entry.entryType.NamedTokenRef? then Err(UnsupportedEntryType)
    else Ok(Effect(c.(manifest := FromEntries(c.manifest + [(key, entry)])), multiset{}, multiset{}, multiset{}))
  }

  /** `mkTxnUpdatingMintDelegate`: a forced update leaves the old token behind. */
  function UpdateMintDelegate(h: SeedHash, c: Charter, forced: bool, scriptHash: Option<string>, config: string,
                              seed: TxOutputId): Effect {
    var token := UutNameOf(h, "mintDgt", seed);
    var previous := multiset{c.mintDelegateLink.uutName};
    Effect(c.(mintDelegateLink := Link(token, scriptHash, config)), multiset{token},
           if forced then multiset{} else previous, if forced then previous else multiset{})
  }

  /** `mkTxnUpdatingSpendDelegate`. */
  function UpdateSpendDelegate(h: SeedHash, c: Charter, forced: bool, scriptHash: Option<string>, config: string,
                               seed: TxOutputId): Effect {
    var token := UutNameOf(h, "spendDgt", seed);
    var previous := multiset{c.spendDelegateLink.uutName};
    Effect(c.(spendDelegateLink := Link(token, scriptHash, config)), multiset{token},
           if forced then multiset{} else previous, if forced then previous else multiset{})
  }

  /** `mkTxnAddingNamedDelegate`: re-using a name leaves the old delegate's token behind. */
  function AddNamedDelegate(h: SeedHash, c: Charter, name: string, uutName: string, scriptHash: Option<string>,
                            config: string, seed: TxOutputId): Result<Effect, Error> {
    var purpose := if uutName == "" then name else uutName;
    if |purpose| > MAX_PURPOSE then Err(PurposeTooLong)
    else
      var token := UutNameOf(h, purpose, seed);
      Ok(Effect(c.(otherNamedDelegates := FromEntries(c.otherNamedDelegates + [(name, Link(token, scriptHash, config))])),
                multiset{token}, multiset{},
                if Has(c.otherNamedDelegates, name) then multiset{Get(c.otherNamedDelegates, name).value.uutName}
                else multiset{}))
  }
}
