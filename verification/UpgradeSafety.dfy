/**
 * The upgrade theorem: from any reachable charter, an upgrade run that completes leaves
 * nothing pending and a policy in the manifest for every enabled role.
 */
module UpgradeSafety {
  import opened Wrappers
  import opened OrderedMap
  import opened CharterModel
  import opened CharterProtocol
  import opened CharterInvariant
  import opened CharterSafety
  import opened BatchCommit
  import opened Scheduler
  import opened UpgradePlan

  predicate GoodRole(role: RoleInfo) {
    role.typeName != "" && role.idPrefix != "" && role.typeName != CURRENT_SETTINGS
  }

  /** Type names and prefixes are non-empty, and the settings key is not a type name. */
  ghost predicate GoodEnv(env: Env) {
    forall role :: role in env.roles ==> GoodRole(role)
  }

  ghost predicate GoodWorld(env: Env, w: World) {
    && Inv(env.h, w.st)
    && GoodHash(env.h, w.st.spent + set s | s in w.wallet)
    && !HasPolicy(w.st.charter.manifest, CURRENT_SETTINGS)
    && NoneFor(w.st.charter.pendingChanges, CURRENT_SETTINGS)
  }

  /** No policy is lost from one world to the other. */
  ghost predicate Grows(w: World, x: World) {
    forall n :: HasPolicy(w.st.charter.manifest, n) ==> HasPolicy(x.st.charter.manifest, n)
  }

  predicate Clean(w: World) {
    w.st.charter.pendingChanges == []
  }

  // ----- one transaction -----

  lemma InstallIsStep(env: Env, w: World, typeName: string, idPrefix: string)
    requires InstallFrom(env, w, w.st.charter, typeName, idPrefix).Ok?
    ensures w.wallet != []
    ensures Step(env.h, w.st, Install(OptionsFor(env, typeName, idPrefix, w.st.charter), w.wallet[0])) ==
            Ok(InstallFrom(env, w, w.st.charter, typeName, idPrefix).value.st)
  {
    hide InstallPolicy;
  }

  lemma FewerSeeds(env: Env, w: World, x: World)
    requires GoodHash(env.h, w.st.spent + set s | s in w.wallet)
    requires w.wallet != [] && x.wallet == w.wallet[1..] && x.st.spent == w.st.spent + {w.wallet[0]}
    ensures GoodHash(env.h, w.st.spent + {w.wallet[0]}) && GoodHash(env.h, x.st.spent + set s | s in x.wallet)
  {
    var all := w.st.spent + set s | s in w.wallet;
    assert w.wallet[0] in w.wallet;
    GoodHashOnFewer(env.h, w.st.spent + {w.wallet[0]}, all);
    GoodHashOnFewer(env.h, x.st.spent + (set s | s in x.wallet), all);
  }

  /** Queueing an install puts one change for the named policy in front. */
  lemma InstallKeeps(env: Env, w: World, typeName: string, idPrefix: string)
    requires GoodWorld(env, w) && typeName != "" && idPrefix != "" && typeName != CURRENT_SETTINGS
    requires InstallFrom(env, w, w.st.charter, typeName, idPrefix).Ok?
    ensures var x := InstallFrom(env, w, w.st.charter, typeName, idPrefix).value;
            && GoodWorld(env, x)
            && x.st.charter.manifest == w.st.charter.manifest
            && !NoneFor(x.st.charter.pendingChanges, typeName)
  {
    hide QueueChange, GoodCharter, Conserved, UniqueNames, GoodHash, Committable;
    var o, seed := OptionsFor(env, typeName, idPrefix, w.st.charter), w.wallet[0];
    var x := InstallFrom(env, w, w.st.charter, typeName, idPrefix).value;
    InstallIsStep(env, w, typeName, idPrefix);
    var op := Install(o, seed);
    StepIsApply(env.h, w.st, op);
    FewerSeeds(env, w, x);
    StepKeepsInv(env.h, w.st, op);
    var kind := if FindPolicy(w.st.charter.manifest, typeName).Some? then ReplaceChange else AddChange;
    QueuedChange(env.h, w.st.charter, kind, o, seed);
    var p := MkPending(env.h, kind, FindPolicy(w.st.charter.manifest, typeName), o, seed);
    PendingFields(env.h, kind, FindPolicy(w.st.charter.manifest, typeName), o, seed);
    assert x.st.charter.pendingChanges[1..] == w.st.charter.pendingChanges;
  }

  /** A commit succeeds, and every policy that was pending is in the manifest. */
  lemma CommitKeepsWorld(env: Env, w: World)
    requires GoodWorld(env, w)
    ensures Commit(w.st.charter).Ok?
    ensures var x := w.(st := Apply(w.st, Commit(w.st.charter).value, None));
            && GoodWorld(env, x) && Clean(x) && Grows(w, x)
            && forall n :: !NoneFor(w.st.charter.pendingChanges, n) ==> HasPolicy(x.st.charter.manifest, n)
  {
    hide Commit, GoodCharter, Conserved, UniqueNames, GoodHash, NoneFor;
    var c := w.st.charter;
    CommitKeeps(c);
    var x := w.(st := Apply(w.st, Commit(c).value, None));
    var op := CommitPending;
    assert Step(env.h, w.st, op) == Ok(x.st);
    StepKeepsInv(env.h, w.st, op);
    forall n
      ensures HasPolicy(c.manifest, n) ==> HasPolicy(x.st.charter.manifest, n)
      ensures !NoneFor(c.pendingChanges, n) ==> HasPolicy(x.st.charter.manifest, n)
    {
      CommitByKey(c, n);
    }
    CommitByKey(c, CURRENT_SETTINGS);
    NothingForAny(CURRENT_SETTINGS);
  }

  lemma NothingForAny(name: string)
    ensures NoneFor([], name)
  {
  }

  lemma AddSettingsKeeps(env: Env, w: World, entry: ManifestEntry)
    requires GoodWorld(env, w) && AddManifestEntry(w.st.charter, CURRENT_SETTINGS, entry).Ok?
    ensures var x := w.(st := Apply(w.st, AddManifestEntry(w.st.charter, CURRENT_SETTINGS, entry).value, None));
            && GoodWorld(env, x) && Grows(w, x)
            && x.st.charter.pendingChanges == w.st.charter.pendingChanges
  {
    var c := w.st.charter;
    var x := w.(st := Apply(w.st, AddManifestEntry(c, CURRENT_SETTINGS, entry).value, None));
    assert GoodCharter(c);
    FromEntriesSnoc(c.manifest, CURRENT_SETTINGS, entry);
    forall n ensures HasPolicy(x.st.charter.manifest, n) == HasPolicy(c.manifest, n) {
      GetOfPut(c.manifest, CURRENT_SETTINGS, entry, n);
    }
    AddSettingsIsStep(env, w, entry);
  }

  lemma AddSettingsIsStep(env: Env, w: World, entry: ManifestEntry)
    requires GoodWorld(env, w) && AddManifestEntry(w.st.charter, CURRENT_SETTINGS, entry).Ok?
    ensures Inv(env.h, Apply(w.st, AddManifestEntry(w.st.charter, CURRENT_SETTINGS, entry).value, None))
  {
    hide AddManifestEntry, GoodCharter, Conserved, UniqueNames, GoodHash;
    var op := AddEntry(CURRENT_SETTINGS, entry);
    assert Step(env.h, w.st, op) == Ok(Apply(w.st, AddManifestEntry(w.st.charter, CURRENT_SETTINGS, entry).value, None));
    StepKeepsInv(env.h, w.st, op);
  }

  /** An install built on an earlier charter writes that charter back. The world stays good exactly
      when the two account for the same tokens; and the result is that of an install built on the
      current charter exactly when the two are the same. */
  lemma StaleCopyIsHarmlessExactly(env: Env, w: World, known: Charter)
    requires GoodWorld(env, w) && GoodCharter(known)
    requires InstallFrom(env, w, known, SETTINGS, "set").Ok?
    ensures var x := InstallFrom(env, w, known, SETTINGS, "set").value;
            && (Inv(env.h, x.st) <==> Tokens(known) == Tokens(w.st.charter))
            && (InstallFrom(env, w, w.st.charter, SETTINGS, "set") == Ok(x) <==> known == w.st.charter)
  {
    hide GoodCharter, QueueChange, Tokens, GoodHash, Committable;
    var o, seed := OptionsFor(env, SETTINGS, "set", known), w.wallet[0];
    var x := InstallFrom(env, w, known, SETTINGS, "set").value;
    var kind := if FindPolicy(known.manifest, SETTINGS).Some? then ReplaceChange else AddChange;
    var e := QueueChange(env.h, known, kind, o, seed).value;
    QueuedChange(env.h, known, kind, o, seed);
    QueueKeepsExactly(env.h, known, kind, o, seed);
    FewerSeeds(env, w, x);
    FreshName(env.h, w.st, Purpose(o), seed);
    StaleBooks(env.h, w.st, x.st, Tokens(known), UutNameOf(env.h, Purpose(o), seed), Purpose(o), seed);
    if InstallFrom(env, w, w.st.charter, SETTINGS, "set").Ok? {
      var o1 := OptionsFor(env, SETTINGS, "set", w.st.charter);
      var kind1 := if FindPolicy(w.st.charter.manifest, SETTINGS).Some? then ReplaceChange else AddChange;
      QueuedChange(env.h, w.st.charter, kind1, o1, seed);
      var y := InstallFrom(env, w, w.st.charter, SETTINGS, "set").value;
      if x == y {
        assert known.pendingChanges == x.st.charter.pendingChanges[1..];
        assert w.st.charter.pendingChanges == y.st.charter.pendingChanges[1..];
      }
    }
  }

  /** The books after one token is minted on a charter that accounts for `known`. */
  lemma StaleBooks(h: SeedHash, st: State, next: State, known: multiset<string>, token: string, purpose: string,
                   seed: TxOutputId)
    requires Conserved(st) && UniqueNames(h, st) && token !in st.minted
    requires next.minted == st.minted + multiset{token} && next.burned == st.burned + multiset{}
    requires next.stranded == st.stranded + multiset{}
    requires next.spent == st.spent + {seed} && token == UutNameOf(h, purpose, seed)
    requires Tokens(next.charter) == known + multiset{token}
    ensures UniqueNames(h, next)
    ensures Conserved(next) <==> known == Tokens(st.charter)
  {
    hide UutNameOf, Tokens;
    forall t | t in next.minted
      ensures next.minted[t] == 1 && exists p, s :: s in next.spent && t == UutNameOf(h, p, s)
    {
      if t in st.minted {
        var p, s :| s in st.spent && t == UutNameOf(h, p, s);
        assert s in next.spent;
      } else {
        assert seed in next.spent;
      }
    }
    if Conserved(next) {
      forall k ensures known[k] == Tokens(st.charter)[k] {
        assert next.minted[k] == (next.burned + Tokens(next.charter) + next.stranded)[k];
        assert st.minted[k] == (st.burned + Tokens(st.charter) + st.stranded)[k];
      }
      assert known == Tokens(st.charter);
    }
  }

  /** The only node with a charter of its own is planned against the current one. */
  predicate PlannedFor(job: Job, w: World) {
    job.InstallSettings? ==> job.known == w.st.charter
  }

  predicate RoleIsGood(job: Job) {
    job.SetupRole? ==> GoodRole(job.role)
  }

  /** Every builder's transaction keeps the world good and loses no policy. */
  lemma {:induction false} JobKeeps(env: Env, job: Job, w: World)
    requires GoodEnv(env) && GoodWorld(env, w) && PlannedFor(job, w) && RoleIsGood(job)
    requires Build(env, job, w).Txn?
    ensures GoodWorld(env, Build(env, job, w).next) && Grows(w, Build(env, job, w).next)
  {
    hide GoodWorld, InstallFrom, Commit, AddManifestEntry;
    match job
    case InstallSettings(_) => InstallKeeps(env, w, SETTINGS, "set");
    case SetupRole(role) =>
      if InstallFrom(env, w, w.st.charter, role.typeName, role.idPrefix).Ok? {
        InstallKeeps(env, w, role.typeName, role.idPrefix);
      }
    case CommitIfNeeded => CommitKeepsWorld(env, w);
    case AddCurrentSettings =>
      AddSettingsKeeps(env, w, ManifestEntry(w.settingsRecord.value, None, NamedTokenRef));
    case CreateSettingsRecord => SettingsRecordKeeps(env, w);
    case StoreRefScript(_) =>
  }

  /** The settings record spends its seed and leaves the charter alone. */
  lemma SettingsRecordKeeps(env: Env, w: World)
    requires GoodWorld(env, w) && BuildSettingsRecord(env, w).Txn?
    ensures var x := BuildSettingsRecord(env, w).next;
            GoodWorld(env, x) && Grows(w, x) && x.st.charter == w.st.charter && x.settingsRecord.Some?
  {
    hide GoodCharter, GoodHash, SettingsPolicy;
    var x := BuildSettingsRecord(env, w).next;
    FewerSeeds(env, w, x);
    forall t | t in x.st.minted
      ensures x.st.minted[t] == 1 && exists p, s :: s in x.st.spent && t == UutNameOf(env.h, p, s)
    {
      var p, s :| s in w.st.spent && t == UutNameOf(env.h, p, s);
      assert s in x.st.spent;
    }
  }

  // ----- whole subtrees -----

  predicate Ordinary(jobs: seq<Job>) {
    forall i :: 0 <= i < |jobs| ==> !jobs[i].InstallSettings? && RoleIsGood(jobs[i])
  }

  lemma KidsAreOrdinary(env: Env, job: Job, w: World)
    requires GoodEnv(env)
    ensures Ordinary(Build(env, job, w).Kids())
  {
    if job.CheckForUpdates? && env.autoSetup && RoleJobs(env.roles, w.st.charter).Ok? {
      RoleJobsAreSetups(env.roles, w.st.charter);
      var kids, jobs := Build(env, job, w).Kids(), RoleJobs(env.roles, w.st.charter).value;
      forall i | 0 <= i < |kids| ensures !kids[i].InstallSettings? && RoleIsGood(kids[i]) {
        if 0 < i <= |jobs| {
          assert kids[i] == jobs[i - 1] && jobs[i - 1] in jobs;
        }
      }
    }
  }

  /** Whatever is nested in a node, its run keeps the world good and loses no policy. */
  lemma {:induction false} NodeKeeps(env: Env, job: Job, path: Path, w: World)
    requires Bounded(Plan(env)) && GoodEnv(env) && GoodWorld(env, w) && PlannedFor(job, w) && RoleIsGood(job)
    ensures var x := RunNode(Plan(env), job, path, w).state; GoodWorld(env, x) && Grows(w, x)
    decreases Rank(job), 1, 0
  {
    hide GoodWorld, Build, Grows;
    var p, o := Plan(env), Build(env, job, w);
    assert p.build(job, w) == o && p.rank(job) == Rank(job);
    GrowsReflexive(w);
    if o.Txn? || o.Facade? {
      var next := if o.Txn? then o.next else w;
      if o.Txn? {
        JobKeeps(env, job, w);
      }
      KidsAreOrdinary(env, job, w);
      assert RanksBelow(p, p.build(job, w).Kids(), p.rank(job));
      ListKeeps(env, o.children, 0, path, next, Rank(job));
      assert RunNode(p, job, path, w).state == RunList(p, o.children, path, next, p.rank(job)).state;
      GrowsTransitive(w, next, RunNode(p, job, path, w).state);
    }
  }

  lemma {:induction false} ListKeeps(env: Env, jobs: seq<Job>, i: nat, parent: Path, w: World, bound: nat)
    requires Bounded(Plan(env)) && RanksBelow(Plan(env), jobs, bound) && i <= |jobs|
    requires GoodEnv(env) && GoodWorld(env, w) && Ordinary(jobs)
    ensures var x := RunFrom(Plan(env), jobs, i, parent, w, bound).state; GoodWorld(env, x) && Grows(w, x)
    decreases bound, 0, |jobs| - i
  {
    hide GoodWorld, Build, Grows;
    GrowsReflexive(w);
    if i < |jobs| {
      assert Plan(env).rank(jobs[i]) < bound;
      NodeKeeps(env, jobs[i], Child(parent, i), w);
      var first := RunNode(Plan(env), jobs[i], Child(parent, i), w);
      if first.error.None? {
        ListKeeps(env, jobs, i + 1, parent, first.state, bound);
        GrowsTransitive(w, first.state, RunFrom(Plan(env), jobs, i + 1, parent, first.state, bound).state);
      }
    }
  }

  lemma GrowsReflexive(w: World)
    ensures Grows(w, w)
  {
  }

  lemma GrowsTransitive(w: World, x: World, y: World)
    requires Grows(w, x) && Grows(x, y)
    ensures Grows(w, y)
  {
  }

  // ----- what each kind of node achieves -----

  /** After a commit node nothing is pending, and what was pending is in the manifest. */
  lemma CommitNode(env: Env, path: Path, w: World)
    requires Bounded(Plan(env)) && GoodEnv(env) && GoodWorld(env, w)
    ensures var r := RunNode(Plan(env), CommitIfNeeded, path, w);
            && r.error.None? && GoodWorld(env, r.state) && Clean(r.state) && Grows(w, r.state)
            && forall n :: !NoneFor(w.st.charter.pendingChanges, n) ==> HasPolicy(r.state.st.charter.manifest, n)
  {
    hide GoodWorld, Commit, Grows;
    GrowsReflexive(w);
    var p := Plan(env);
    assert p.build(CommitIfNeeded, w) == BuildCommit(w);
    CommitKeepsWorld(env, w);
  }

  lemma RefScriptNode(env: Env, name: string, path: Path, w: World)
    requires Bounded(Plan(env))
    ensures var r := RunNode(Plan(env), StoreRefScript(name), path, w); r.error.None? && r.state == w
  {
    var p := Plan(env);
    assert p.build(StoreRefScript(name), w) == Txn(w, []);
  }

  /** The transactions nested in an install: the reference script, then the install's own commit. */
  lemma InstallKids(env: Env, name: string, path: Path, w: World, bound: nat)
    requires Bounded(Plan(env)) && GoodEnv(env) && GoodWorld(env, w) && bound > 0
    requires RanksBelow(Plan(env), [StoreRefScript(name), CommitIfNeeded], bound)
    ensures var r := RunList(Plan(env), [StoreRefScript(name), CommitIfNeeded], path, w, bound);
            && r.error.None? && GoodWorld(env, r.state) && Clean(r.state) && Grows(w, r.state)
            && forall n :: !NoneFor(w.st.charter.pendingChanges, n) ==> HasPolicy(r.state.st.charter.manifest, n)
  {
    hide GoodWorld, Commit, Grows, RunNode;
    var p, kids := Plan(env), [StoreRefScript(name), CommitIfNeeded];
    RefScriptNode(env, name, Child(path, 0), w);
    CommitNode(env, Child(path, 1), w);
    assert RunFrom(p, kids, 2, path, RunNode(p, kids[1], Child(path, 1), w).state, bound).error.None?;
    assert RunFrom(p, kids, 1, path, w, bound).state == RunNode(p, kids[1], Child(path, 1), w).state;
  }

  /** With nothing pending, an install that is "not needed" means that the policy is there. */
  lemma NotNeededMeansInstalled(env: Env, w: World, role: RoleInfo)
    requires GoodWorld(env, w) && Clean(w)
    requires InstallFrom(env, w, w.st.charter, role.typeName, role.idPrefix).Err?
    requires MeansNotNeeded(InstallFrom(env, w, w.st.charter, role.typeName, role.idPrefix).error)
    ensures HasPolicy(w.st.charter.manifest, role.typeName)
  {
    assert GoodCharter(w.st.charter);
    FindPolicyIsLookup(w.st.charter.manifest, role.typeName);
  }

  /** A role's node that completes from a clean charter leaves it clean, with the role's policy. */
  lemma RoleNode(env: Env, role: RoleInfo, path: Path, w: World)
    requires Bounded(Plan(env)) && GoodEnv(env) && GoodWorld(env, w) && GoodRole(role) && Clean(w)
    requires RunNode(Plan(env), SetupRole(role), path, w).error.None?
    ensures var x := RunNode(Plan(env), SetupRole(role), path, w).state;
            Clean(x) && HasPolicy(x.st.charter.manifest, role.typeName)
  {
    hide GoodWorld, InstallFrom, Grows;
    var p, job := Plan(env), SetupRole(role);
    assert p.build(job, w) == BuildRole(env, w, role);
    match InstallFrom(env, w, w.st.charter, role.typeName, role.idPrefix)
    case Ok(next) =>
      InstallKeeps(env, w, role.typeName, role.idPrefix);
      assert RanksBelow(p, p.build(job, w).Kids(), p.rank(job));
      InstallKids(env, role.typeName, path, next, p.rank(job));
    case Err(e) =>
      NotNeededMeansInstalled(env, w, role);
  }

  predicate SetupsAndCommits(jobs: seq<Job>) {
    forall i :: 0 <= i < |jobs| ==> jobs[i].CommitIfNeeded? || (jobs[i].SetupRole? && GoodRole(jobs[i].role))
  }

  /** The role nodes in turn: each finds the charter clean, and leaves it so. */
  lemma {:induction false} RolesInTurn(env: Env, jobs: seq<Job>, i: nat, parent: Path, w: World, bound: nat)
    requires Bounded(Plan(env)) && RanksBelow(Plan(env), jobs, bound) && i <= |jobs|
    requires GoodEnv(env) && GoodWorld(env, w) && SetupsAndCommits(jobs)
    requires Clean(w) || (i < |jobs| && jobs[i].CommitIfNeeded?)
    requires RunFrom(Plan(env), jobs, i, parent, w, bound).error.None?
    ensures var x := RunFrom(Plan(env), jobs, i, parent, w, bound).state;
            && GoodWorld(env, x) && Clean(x) && Grows(w, x)
            && forall j :: i <= j < |jobs| && jobs[j].SetupRole? ==> HasPolicy(x.st.charter.manifest, jobs[j].role.typeName)
    decreases |jobs| - i
  {
    hide GoodWorld, Grows, RunNode, Build;
    GrowsReflexive(w);
    if i < |jobs| {
      var path := Child(parent, i);
      var first := RunNode(Plan(env), jobs[i], path, w);
      assert first.error.None?;
      NodeKeeps(env, jobs[i], path, w);
      if jobs[i].CommitIfNeeded? {
        CommitNode(env, path, w);
      } else {
        RoleNode(env, jobs[i].role, path, w);
      }
      RolesInTurn(env, jobs, i + 1, parent, first.state, bound);
      var x := RunFrom(Plan(env), jobs, i + 1, parent, first.state, bound).state;
      GrowsTransitive(w, first.state, x);
      GrowsAt(first.state, x);
    }
  }

  lemma GrowsAt(w: World, x: World)
    requires Grows(w, x)
    ensures forall n :: HasPolicy(w.st.charter.manifest, n) ==> HasPolicy(x.st.charter.manifest, n)
  {
  }

  predicate IsActive(role: RoleInfo) {
    role.isDataPolicy && role.enabled
  }

  lemma {:induction false} RoleJobsCover(roles: seq<RoleInfo>, c: Charter)
    requires RoleJobs(roles, c).Ok?
    ensures forall role :: role in roles && IsActive(role) ==> SetupRole(role) in RoleJobs(roles, c).value
    ensures forall job :: job in RoleJobs(roles, c).value ==> job.SetupRole? && job.role in roles
  {
    if roles != [] {
      RoleJobsCover(roles[1..], c);
    }
  }

  /** Nothing is pending and every active role has its policy. */
  ghost predicate Upgraded(env: Env, w: World) {
    && Clean(w)
    && (env.autoSetup ==> forall role :: role in env.roles && IsActive(role) ==>
                                           HasPolicy(w.st.charter.manifest, role.typeName))
  }

  lemma CheckKids(env: Env, w: World) returns (kids: seq<Job>)
    requires Bounded(Plan(env)) && GoodEnv(env) && Build(env, CheckForUpdates, w).Facade?
    ensures Build(env, CheckForUpdates, w) == Facade(kids) && SetupsAndCommits(kids)
    ensures RanksBelow(Plan(env), kids, Rank(CheckForUpdates))
    ensures |kids| > 0 && kids[0].CommitIfNeeded?
    ensures env.autoSetup ==> forall role :: role in env.roles && IsActive(role) ==>
                                             exists j :: 0 <= j < |kids| && kids[j] == SetupRole(role)
  {
    kids := Build(env, CheckForUpdates, w).children;
    if env.autoSetup {
      var jobs := RoleJobs(env.roles, w.st.charter).value;
      RoleJobsCover(env.roles, w.st.charter);
      forall role | role in env.roles && IsActive(role) ensures exists j :: 0 <= j < |kids| && kids[j] == SetupRole(role) {
        var j :| 0 <= j < |jobs| && jobs[j] == SetupRole(role);
        assert kids[j + 1] == SetupRole(role);
      }
    }
  }

  /** "Check for updates", when it completes, has upgraded everything. */
  lemma CheckNode(env: Env, path: Path, w: World)
    requires Bounded(Plan(env)) && GoodEnv(env) && GoodWorld(env, w)
    requires RunNode(Plan(env), CheckForUpdates, path, w).error.None?
    ensures Upgraded(env, RunNode(Plan(env), CheckForUpdates, path, w).state)
  {
    hide GoodWorld, BuildCheck, Grows;
    var p := Plan(env);
    assert p.build(CheckForUpdates, w) == Build(env, CheckForUpdates, w);
    CheckIsFacadeOrFails(env, w);
    var kids := CheckKids(env, w);
    RolesInTurn(env, kids, 0, path, w, p.rank(CheckForUpdates));
  }

  lemma CheckIsFacadeOrFails(env: Env, w: World)
    ensures Build(env, CheckForUpdates, w).Facade? || Build(env, CheckForUpdates, w).Throws?
  {
    if env.autoSetup {
      RoleJobsFailHard(env.roles, w.st.charter);
    }
  }

  lemma {:induction false} RoleJobsFailHard(roles: seq<RoleInfo>, c: Charter)
    ensures RoleJobs(roles, c).Err? ==> !MeansNotNeeded(RoleJobs(roles, c).error)
  {
    if roles != [] {
      RoleJobsFailHard(roles[1..], c);
    }
  }

  /** The jobs planned at the top: only the first may carry a charter, the last checks for updates. */
  lemma TopJobsShape(env: Env, known: Charter)
    requires TopJobs(env, known).Ok?
    ensures var jobs := TopJobs(env, known).value;
            && |jobs| > 0 && jobs[|jobs| - 1] == CheckForUpdates
            && (jobs[0].InstallSettings? ==> jobs[0].known == known)
            && (forall i :: 0 <= i < |jobs| ==> Rank(jobs[i]) <= 2 && RoleIsGood(jobs[i]))
            && (forall i :: 1 <= i < |jobs| ==> !jobs[i].InstallSettings?)
  {
  }

  lemma {:induction false} LastNodeUpgrades(env: Env, jobs: seq<Job>, i: nat, w: World)
    requires Bounded(Plan(env)) && RanksBelow(Plan(env), jobs, 3) && i < |jobs|
    requires GoodEnv(env) && GoodWorld(env, w) && jobs[|jobs| - 1] == CheckForUpdates
    requires PlannedFor(jobs[i], w)
    requires forall j :: i <= j < |jobs| ==> RoleIsGood(jobs[j])
    requires forall j :: i < j < |jobs| ==> !jobs[j].InstallSettings?
    requires RunFrom(Plan(env), jobs, i, [], w, 3).error.None?
    ensures var x := RunFrom(Plan(env), jobs, i, [], w, 3).state; GoodWorld(env, x) && Upgraded(env, x) && Grows(w, x)
    decreases |jobs| - i
  {
    hide GoodWorld, Grows, RunNode, Build, Upgraded;
    var first := RunNode(Plan(env), jobs[i], Child([], i), w);
    assert first.error.None?;
    NodeKeeps(env, jobs[i], Child([], i), w);
    if i + 1 == |jobs| {
      CheckNode(env, Child([], i), w);
    } else {
      LastNodeUpgrades(env, jobs, i + 1, first.state);
      GrowsTransitive(w, first.state, RunFrom(Plan(env), jobs, i + 1, [], first.state, 3).state);
    }
  }

  /** The upgrade run planned against the current charter. */
  function UpgradeRun(env: Env, w: World): Result<Run<Job, World, Error>, Error> {
    PlanIsBounded(env);
    var jobs :- TopJobs(env, w.st.charter);
    TopJobsShape(env, w.st.charter);
    Ok(RunList(Plan(env), jobs, [], w, 3))
  }

  /** From any good world, an upgrade run that completes ends with nothing pending, with a policy
      for every active role, and with every policy that was there before. */
  lemma UpgradeTheorem(env: Env, w: World)
    requires GoodEnv(env) && GoodWorld(env, w)
    requires UpgradeRun(env, w).Ok? && UpgradeRun(env, w).value.error.None?
    ensures var x := UpgradeRun(env, w).value.state;
            GoodWorld(env, x) && Upgraded(env, x) && Grows(w, x)
  {
    hide GoodWorld, Grows, Upgraded, RunFrom, TopJobs;
    PlanIsBounded(env);
    TopJobsShape(env, w.st.charter);
    LastNodeUpgrades(env, TopJobs(env, w.st.charter).value, 0, w);
  }
}
