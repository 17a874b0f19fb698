/**
 * What every step of the charter protocol keeps: each queued change stays committable,
 * authority tokens are conserved, and no token name is ever minted twice.
 */
module CharterInvariant {
  import opened Wrappers
  import opened OrderedMap
  import opened CharterModel
  import opened CharterProtocol

  // ----- token names -----

  /** Suffixes of one length make the name determine both purpose and suffix. */
  lemma UutNameInjective(h: SeedHash, p: string, s: TxOutputId, q: string, t: TxOutputId)
    requires GoodHash(h, {s, t})
    requires UutNameOf(h, p, s) == UutNameOf(h, q, t)
    ensures p == q && s == t
  {
    var a, b := UutNameOf(h, p, s), UutNameOf(h, q, t);
    assert |p| == |a| - 13 && |q| == |b| - 13;
    assert p == a[..|p|] && q == b[..|q|];
    assert h(s) == a[|p| + 1..] && h(t) == b[|q| + 1..];
  }

  /** A name made from an unspent seed has never been minted. */
  lemma FreshName(h: SeedHash, st: State, purpose: string, seed: TxOutputId)
    requires UniqueNames(h, st)
    requires seed !in st.spent && GoodHash(h, st.spent + {seed})
    ensures UutNameOf(h, purpose, seed) !in st.minted
  {
    var token := UutNameOf(h, purpose, seed);
    if token in st.minted {
      var p, s :| s in st.spent && token == UutNameOf(h, p, s);
      UutNameInjective(h, p, s, purpose, seed);
      assert false;
    }
  }

  // ----- lookups in a manifest with distinct keys -----

  /** Scanning for a policy by name agrees with looking the name up. */
  lemma {:induction false} FindPolicyIsLookup(m: Entries<ManifestEntry>, name: string)
    requires Distinct(m)
    ensures FindPolicy(m, name) == if HasPolicy(m, name) then Get(m, name) else None
  {
    if m != [] {
      FindPolicyIsLookup(m[1..], name);
    }
  }

  lemma {:induction false} PendingIsCommittable(pending: seq<PendingChange>, m: Entries<ManifestEntry>, name: string)
    returns (p: PendingChange)
    requires AllCommittable(pending, m) && !NoneFor(pending, name)
    ensures p in pending && IsPendingFor(p, name) && Committable(p, m)
  {
    if IsPendingFor(pending[0], name) {
      p := pending[0];
    } else {
      p := PendingIsCommittable(pending[1..], m, name);
    }
  }

  lemma {:induction false} OwnPolicyAt(m: Entries<ManifestEntry>, name: string)
    requires OwnPolicies(m) && HasPolicy(m, name)
    ensures Get(m, name).value.mph.None?
    ensures Get(m, name).value.entryType.policyLink.uutName == Get(m, name).value.tokenName
  {
    if m[0].0 != name {
      OwnPolicyAt(m[1..], name);
    }
  }

  // ----- what the commit loop collects -----

  /** The manifest entries that committable changes stand for, in their order. */
  function NewEntries(pending: seq<PendingChange>, m: Entries<ManifestEntry>): Entries<ManifestEntry>
    requires AllCommittable(pending, m)
  {
    if pending == [] then []
    else
      var p := pending[0];
      [(p.role.typeName, PolicyEntry(p.dgtLink.value, p.action.idPrefix))] + NewEntries(pending[1..], m)
  }

  predicate AnyReplace(pending: seq<PendingChange>) {
    pending != [] && ((pending[0].DelegateChange? && pending[0].action.Replace?) || AnyReplace(pending[1..]))
  }

  lemma {:induction false} NewEntriesKeys(pending: seq<PendingChange>, m: Entries<ManifestEntry>, k: string)
    requires AllCommittable(pending, m)
    ensures Has(NewEntries(pending, m), k) <==> !NoneFor(pending, k)
  {
    if pending != [] {
      NewEntriesKeys(pending[1..], m, k);
      assert NewEntries(pending, m)[1..] == NewEntries(pending[1..], m);
    }
  }

  lemma {:induction false} NewEntriesDistinct(pending: seq<PendingChange>, m: Entries<ManifestEntry>)
    requires AllCommittable(pending, m) && DistinctNames(pending)
    ensures Distinct(NewEntries(pending, m))
  {
    if pending != [] {
      NewEntriesDistinct(pending[1..], m);
      NewEntriesKeys(pending[1..], m, pending[0].role.typeName);
      assert NewEntries(pending, m)[1..] == NewEntries(pending[1..], m);
    }
  }

  lemma CommittableEntry(p: PendingChange, m: Entries<ManifestEntry>)
    requires Committable(p, m)
    ensures EntryFor(p, m) ==
            Ok((p.role.typeName, PolicyEntry(p.dgtLink.value, p.action.idPrefix), p.action.Replace?))
  {
  }

  /** One turn of the loop appends the change's entry. */
  lemma CollectOne(pending: seq<PendingChange>, m: Entries<ManifestEntry>, acc: Collected)
    requires pending != [] && Committable(pending[0], m)
    requires !Has(acc.entries, pending[0].role.typeName)
    ensures Collect(pending, m, acc) ==
            var p := pending[0];
            Collect(pending[1..], m,
                    Collected(acc.entries + [(p.role.typeName, PolicyEntry(p.dgtLink.value, p.action.idPrefix))],
                              acc.replacing || p.action.Replace?))
  {
    var p := pending[0];
    CommittableEntry(p, m);
    PutOfNewKey(acc.entries, p.role.typeName, PolicyEntry(p.dgtLink.value, p.action.idPrefix));
  }

  /** On committable changes with distinct names the loop collects exactly their entries. */
  lemma {:induction false} CollectIsNewEntries(pending: seq<PendingChange>, m: Entries<ManifestEntry>, acc: Collected)
    requires AllCommittable(pending, m)
    requires Distinct(acc.entries + NewEntries(pending, m))
    ensures Collect(pending, m, acc) ==
            Ok(Collected(acc.entries + NewEntries(pending, m), acc.replacing || AnyReplace(pending)))
    decreases |pending|
  {
    var all := acc.entries + NewEntries(pending, m);
    if pending == [] {
      assert all == acc.entries;
    } else {
      var p, rest := pending[0], pending[1..];
      var one := [(p.role.typeName, PolicyEntry(p.dgtLink.value, p.action.idPrefix))];
      assert !Has(acc.entries, p.role.typeName) by {
        ConcatDistinctInv(acc.entries, NewEntries(pending, m));
        assert Has(NewEntries(pending, m), p.role.typeName);
      }
      CollectOne(pending, m, acc);
      assert (acc.entries + one) + NewEntries(rest, m) == all;
      CollectIsNewEntries(rest, m, Collected(acc.entries + one, acc.replacing || p.action.Replace?));
    }
  }

  // ----- token sums -----

  lemma {:induction false} PolicyTokensOfConcat(a: Entries<ManifestEntry>, b: Entries<ManifestEntry>)
    ensures PolicyTokens(a + b) == PolicyTokens(a) + PolicyTokens(b)
  {
    if a == [] {
      assert a + b == b;
    } else {
      assert (a + b)[1..] == a[1..] + b;
      PolicyTokensOfConcat(a[1..], b);
    }
  }

  lemma {:induction false} NewEntriesCarryPendingTokens(pending: seq<PendingChange>, m: Entries<ManifestEntry>)
    requires AllCommittable(pending, m)
    ensures PolicyTokens(NewEntries(pending, m)) == PendingTokens(pending)
  {
    if pending != [] {
      NewEntriesCarryPendingTokens(pending[1..], m);
      assert NewEntries(pending, m)[1..] == NewEntries(pending[1..], m);
    }
  }

  /** Only policies are taken over by the new entries. */
  predicate TakesOverPolicies(m: Entries<ManifestEntry>, news: Entries<ManifestEntry>) {
    m != [] ==> (Has(news, m[0].0) ==> IsPolicy(m[0].1)) && TakesOverPolicies(m[1..], news)
  }

  /** The burned tokens are exactly those of the policies that the commit drops. */
  lemma {:induction false} ReplacedTokens(m: Entries<ManifestEntry>, news: Entries<ManifestEntry>)
    requires OwnPolicies(m) && TakesOverPolicies(m, news)
    ensures Replaced(m, news).Ok?
    ensures multiset(Replaced(m, news).value) + PolicyTokens(Without(m, news)) == PolicyTokens(m)
  {
    if m != [] {
      var rest := m[1..];
      ReplacedTokens(rest, news);
      var ts := Replaced(rest, news).value;
      if Has(news, m[0].0) {
        OneMoreReplaced(m[0].1.tokenName, ts, PolicyTokens(Without(rest, news)), PolicyTokens(rest));
      } else {
        assert Without(m, news)[1..] == Without(rest, news);
        OneMoreKept(if IsPolicy(m[0].1) then multiset{m[0].1.tokenName} else multiset{}, multiset(ts),
                    PolicyTokens(Without(rest, news)), PolicyTokens(rest));
      }
    }
  }

  lemma OneMoreReplaced(t: string, ts: seq<string>, kept: multiset<string>, all: multiset<string>)
    requires multiset(ts) + kept == all
    ensures multiset([t] + ts) + kept == multiset{t} + all
  {
    assert multiset([t] + ts) == multiset{t} + multiset(ts);
  }

  lemma OneMoreKept(t: multiset<string>, ts: multiset<string>, kept: multiset<string>, all: multiset<string>)
    requires ts + kept == all
    ensures ts + (t + kept) == t + all
  {
  }

  // ----- the commit, in closed form -----

  /** What a good charter's pending changes do to the manifest. */
  function CommittedManifest(c: Charter): Entries<ManifestEntry>
    requires AllCommittable(c.pendingChanges, c.manifest)
  {
    var news := NewEntries(c.pendingChanges, c.manifest);
    news + Without(c.manifest, news)
  }

  /** Every manifest key that a committable change is about names a policy. */
  lemma {:induction false} TakesOverPoliciesFrom(m: Entries<ManifestEntry>, news: Entries<ManifestEntry>)
    requires Distinct(m)
    requires forall k :: Has(m, k) && Has(news, k) ==> HasPolicy(m, k)
    ensures TakesOverPolicies(m, news)
  {
    if m != [] {
      assert Has(m, m[0].0);
      forall k | Has(m[1..], k) && Has(news, k) ensures HasPolicy(m[1..], k) {
        assert Get(m, k) == Get(m[1..], k);
      }
      TakesOverPoliciesFrom(m[1..], news);
    }
  }

  lemma {:induction false} WithoutReplacesAllAreAdds(pending: seq<PendingChange>, m: Entries<ManifestEntry>, k: string)
    requires AllCommittable(pending, m) && !NoneFor(pending, k) && Has(m, k)
    ensures AnyReplace(pending)
  {
    if !IsPendingFor(pending[0], k) {
      WithoutReplacesAllAreAdds(pending[1..], m, k);
    }
  }

  lemma CommittableTakesOverPolicies(c: Charter)
    requires GoodCharter(c)
    ensures TakesOverPolicies(c.manifest, NewEntries(c.pendingChanges, c.manifest))
    ensures !AnyReplace(c.pendingChanges) ==>
              forall k :: Has(c.manifest, k) ==> !Has(NewEntries(c.pendingChanges, c.manifest), k)
  {
    var m, pending := c.manifest, c.pendingChanges;
    var news := NewEntries(pending, m);
    forall k | Has(m, k) && Has(news, k) ensures HasPolicy(m, k) && AnyReplace(pending) {
      NewEntriesKeys(pending, m, k);
      var p := PendingIsCommittable(pending, m, k);
      WithoutReplacesAllAreAdds(pending, m, k);
    }
    TakesOverPoliciesFrom(m, news);
  }

  lemma CommittedManifestDistinct(c: Charter)
    requires GoodCharter(c)
    ensures Distinct(CommittedManifest(c))
  {
    var news := NewEntries(c.pendingChanges, c.manifest);
    var rest := Without(c.manifest, news);
    NewEntriesDistinct(c.pendingChanges, c.manifest);
    WithoutDistinct(c.manifest, news);
    forall k | Has(news, k) ensures !Has(rest, k) {
      GetOfWithout(c.manifest, news, k);
    }
    ConcatDistinct(news, rest);
  }

  /** None of the commit's guards throws on a good charter, and this is what it produces:
      the new entries in pending order, then the untouched ones; and each token of a
      replaced policy burned once. */
  lemma CommitSucceeds(c: Charter)
    requires GoodCharter(c)
    ensures Commit(c).Ok?
    ensures Commit(c).value.charter == c.(manifest := CommittedManifest(c), pendingChanges := [])
    ensures Commit(c).value.burned +
            PolicyTokens(Without(c.manifest, NewEntries(c.pendingChanges, c.manifest))) == PolicyTokens(c.manifest)
    ensures Commit(c).value.minted == multiset{} && Commit(c).value.stranded == multiset{}
  {
    var news := NewEntries(c.pendingChanges, c.manifest);
    NewEntriesDistinct(c.pendingChanges, c.manifest);
    assert [] + news == news;
    CollectIsNewEntries(c.pendingChanges, c.manifest, Collected([], false));
    CommittableTakesOverPolicies(c);
    ReplacedTokens(c.manifest, news);
    CommittedManifestDistinct(c);
    assert [] + (news + Without(c.manifest, news)) == news + Without(c.manifest, news);
    PutAllOfDistinct([], news + Without(c.manifest, news));
    if !AnyReplace(c.pendingChanges) {
      WithoutAbsent(c.manifest, news);
    }
  }
}
