/**
 * When the builders throw, on any charter whatever and not only on those that a run of them reaches.
 */
module CharterErrors {
  import opened Wrappers
  import opened OrderedMap
  import opened CharterModel
  import opened CharterProtocol
  import opened CharterInvariant

  // ----- queueing -----

  /** A change of this kind for the named policy is pending. */
  ghost predicate Queued(pending: seq<PendingChange>, kind: ChangeKind, name: string) {
    exists p :: p in pending && p.DelegateChange? && p.role == DgDataRole(name)
                && (match kind case AddChange => p.action.Add? case ReplaceChange => p.action.Replace?)
  }

  lemma {:induction false} FindPendingFinds(pending: seq<PendingChange>, kind: ChangeKind, name: string)
    ensures FindPending(pending, kind, name) <==> Queued(pending, kind, name)
  {
    if pending != [] {
      FindPendingFinds(pending[1..], kind, name);
      assert pending == [pending[0]] + pending[1..];
    }
  }

  /** The bundle knows the script on chain, or knows none where there is none. */
  predicate KnowsScript(onchain: Option<string>, scripts: ScriptView) {
    scripts.previous == onchain
  }

  /** The entry is one of this Capo's policies, whose bundle would put another script in its place. */
  predicate Replaceable(entry: Option<ManifestEntry>, scripts: ScriptView) {
    && entry.Some? && IsPolicy(entry.value) && entry.value.mph.None?
    && var onchain := entry.value.entryType.policyLink.validatorHash;
       KnowsScript(onchain, scripts) && (onchain.Some? ==> scripts.next != onchain)
  }

  /** The entry is one of this Capo's policies, and its bundle has nothing newer. */
  predicate UpToDate(entry: Option<ManifestEntry>, scripts: ScriptView) {
    && entry.Some? && IsPolicy(entry.value) && entry.value.mph.None?
    && var onchain := entry.value.entryType.policyLink.validatorHash;
       onchain.Some? && (scripts.previous.None? || (KnowsScript(onchain, scripts) && scripts.next == onchain))
  }

  /** Main result: on any charter, queueing succeeds exactly when the purpose is short enough, the
      manifest calls for a change of this kind, and none of the kind is pending; it is "not needed"
      exactly when the policy to be replaced is up to date, or only the pending change stands in the way. */
  lemma QueueOnAnyCharter(h: SeedHash, c: Charter, kind: ChangeKind, o: QueueOptions, seed: TxOutputId)
    requires Distinct(c.manifest)
    ensures var r := QueueChange(h, c, kind, o, seed);
            var entry := Get(c.manifest, o.typeName);
            var short := |if o.uutName == "" then "dgPol" else o.uutName| <= 13;
            var fits := if kind == AddChange then entry.None? else Replaceable(entry, o.scripts);
            && (r.Ok? <==> short && fits && !Queued(c.pendingChanges, kind, o.typeName))
            && (r.Err? && MeansNotNeeded(r.error) <==>
                  short && ((kind == ReplaceChange && UpToDate(entry, o.scripts))
                            || (fits && Queued(c.pendingChanges, kind, o.typeName))))
  {
    FindPolicyIsLookup(c.manifest, o.typeName);
    FindPendingFinds(c.pendingChanges, kind, o.typeName);
  }

  // ----- committing -----

  /** The commit loop accepts the change. */
  predicate Accepted(p: PendingChange, m: Entries<ManifestEntry>) {
    && p.DelegateChange? && p.role.DgDataRole? && p.role.typeName != "" && p.dgtLink.Some?
    && match p.action
       case Add(_, _, idPrefix) => idPrefix != "" && !Has(m, p.role.typeName)
       case Replace(_, _, idPrefix, _) => idPrefix != "" && Has(m, p.role.typeName)
       case Remove => false
  }

  predicate AllAccepted(pending: seq<PendingChange>, m: Entries<ManifestEntry>) {
    forall p <- pending :: Accepted(p, m)
  }

  ghost predicate SomeReplace(pending: seq<PendingChange>) {
    exists p :: p in pending && p.DelegateChange? && p.action.Replace?
  }

  ghost predicate SomeFor(pending: seq<PendingChange>, name: string) {
    exists p :: p in pending && IsPendingFor(p, name)
  }

  lemma EntryForAccepts(p: PendingChange, m: Entries<ManifestEntry>)
    ensures EntryFor(p, m).Ok? <==> Accepted(p, m)
    ensures EntryFor(p, m).Ok? ==>
              EntryFor(p, m).value.0 == p.role.typeName && (EntryFor(p, m).value.2 <==> p.action.Replace?)
  {
  }

  /** What the loop collects, from any pending changes. */
  lemma {:induction false} CollectOnAny(pending: seq<PendingChange>, m: Entries<ManifestEntry>, acc: Collected)
    ensures var r := Collect(pending, m, acc);
            && (r.Ok? <==> AllAccepted(pending, m))
            && (r.Ok? ==>
                  && (r.value.replacing <==> acc.replacing || SomeReplace(pending))
                  && forall k: string :: Has(r.value.entries, k) <==> Has(acc.entries, k) || SomeFor(pending, k))
    decreases |pending|
  {
    if pending != [] {
      var p, rest := pending[0], pending[1..];
      assert pending == [p] + rest;
      EntryForAccepts(p, m);
      hide EntryFor, Accepted, IsPendingFor;
      var e := EntryFor(p, m);
      if e.Ok? {
        var next := Collected(Put(acc.entries, e.value.0, e.value.1), acc.replacing || e.value.2);
        CollectOnAny(rest, m, next);
        forall k: string ensures Has(next.entries, k) <==> Has(acc.entries, k) || IsPendingFor(p, k) {
          GetOfPut(acc.entries, e.value.0, e.value.1, k);
          NameOf(p, m, k);
        }
        ReplaceOf(p, m);
      }
    }
  }

  lemma NameOf(p: PendingChange, m: Entries<ManifestEntry>, k: string)
    requires Accepted(p, m)
    ensures IsPendingFor(p, k) <==> k == p.role.typeName
  {
  }

  lemma ReplaceOf(p: PendingChange, m: Entries<ManifestEntry>)
    requires Accepted(p, m)
    ensures p.DelegateChange?
  {
  }

  /** The entry's token was minted by another policy than this Capo's. */
  predicate Foreign(e: ManifestEntry) {
    e.mph.Some? && e.mph.value.OtherPolicy?
  }

  lemma {:induction false} ReplacedOnAny(m: Entries<ManifestEntry>, news: Entries<ManifestEntry>)
    ensures Replaced(m, news).Ok? <==> forall i :: 0 <= i < |m| && Has(news, m[i].0) ==> !Foreign(m[i].1)
  {
    if m != [] {
      ReplacedOnAny(m[1..], news);
      assert forall i :: 0 < i < |m| ==> m[i] == m[1..][i - 1];
      assert forall i :: 0 <= i < |m| - 1 ==> m[1..][i] == m[i + 1];
    }
  }

  /** Main result: on any charter, a commit succeeds exactly when each pending change is an Add or a
      Replace that fits the manifest, and, if any replaces, no entry under a pending name belongs to
      another minting policy. */
  lemma CommitOnAnyCharter(c: Charter)
    ensures Commit(c).Ok? <==>
            && AllAccepted(c.pendingChanges, c.manifest)
            && (SomeReplace(c.pendingChanges) ==>
                  forall i :: 0 <= i < |c.manifest| && SomeFor(c.pendingChanges, c.manifest[i].0) ==> !Foreign(c.manifest[i].1))
    ensures Commit(c).Err? ==> !MeansNotNeeded(Commit(c).error)
  {
    hide Foreign, SomeFor, SomeReplace, AllAccepted, Updated, Replaced, Collect;
    CollectOnAny(c.pendingChanges, c.manifest, Collected([], false));
    var r := Collect(c.pendingChanges, c.manifest, Collected([], false));
    if r.Ok? {
      ReplacedOnAny(c.manifest, r.value.entries);
      ReplacedFailsHard(c.manifest, r.value.entries);
    } else {
      CollectFailsHard(c.pendingChanges, c.manifest, Collected([], false));
    }
  }

  lemma {:induction false} ReplacedFailsHard(m: Entries<ManifestEntry>, news: Entries<ManifestEntry>)
    ensures Replaced(m, news).Err? ==> Replaced(m, news).error.ForeignMintingPolicy?
  {
    if m != [] {
      ReplacedFailsHard(m[1..], news);
    }
  }

  lemma {:induction false} CollectFailsHard(pending: seq<PendingChange>, m: Entries<ManifestEntry>, acc: Collected)
    ensures Collect(pending, m, acc).Err? ==> !MeansNotNeeded(Collect(pending, m, acc).error)
    decreases |pending|
  {
    if pending != [] && EntryFor(pending[0], m).Ok? {
      var e := EntryFor(pending[0], m).value;
      CollectFailsHard(pending[1..], m, Collected(Put(acc.entries, e.0, e.1), acc.replacing || e.2));
    }
  }

  // ----- the rest -----

  /** When a step throws: a spent seed, or what its own builder refuses. */
  lemma StepOnAnyState(h: SeedHash, st: State, op: Op)
    requires Distinct(st.charter.manifest)
    ensures Step(h, st, op).Ok? <==>
            match op
            case CommitPending => Commit(st.charter).Ok?
            case AddEntry(_, entry) => entry.entryType.NamedTokenRef?
            case UpdateMint(_, _, _, seed) => seed !in st.spent
            case UpdateSpend(_, _, _, seed) => seed !in st.spent
            case AddNamed(name, uutName, _, _, seed) => seed !in st.spent && |if uutName != "" then uutName else name| <= 13
            case Queue(kind, o, seed) => seed !in st.spent && QueueChange(h, st.charter, kind, o, seed).Ok?
            case Install(o, seed) =>
              seed !in st.spent
              && QueueChange(h, st.charter, if HasPolicy(st.charter.manifest, o.typeName) then ReplaceChange else AddChange,
                             o, seed).Ok?
  {
    hide Commit, QueueChange;
    if op.Install? { FindPolicyIsLookup(st.charter.manifest, op.options.typeName); }
  }
}
