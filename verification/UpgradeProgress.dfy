/**
 * When an upgrade run completes: with a fresh seed for every role, one for the settings policy and
 * one for the settings record, scripts that the bundles know, and no other entry under a policy's
 * name, nothing in it throws.
 */
module UpgradeProgress {
  import opened Wrappers
  import opened OrderedMap
  import opened CharterModel
  import opened CharterProtocol
  import opened CharterInvariant
  import opened CharterSafety
  import opened BatchCommit
  import opened Scheduler
  import opened UpgradePlan
  import opened UpgradeSafety
  import UpgradeSettings

  /** The names under which the plan installs policies. */
  predicate PolicyName(env: Env, n: string) {
    n == SETTINGS || exists i :: 0 <= i < |env.roles| && env.roles[i].typeName == n
  }

  /** What the manifest has under such a name is a policy. */
  ghost predicate NoImpostors(env: Env, w: World) {
    forall n :: PolicyName(env, n) && Has(w.st.charter.manifest, n) ==> HasPolicy(w.st.charter.manifest, n)
  }

  /** At least `k` distinct seeds that were never spent. */
  ghost predicate SeedsLeft(w: World, k: nat) {
    && |w.wallet| >= k
    && (forall i, j :: 0 <= i < j < |w.wallet| ==> w.wallet[i] != w.wallet[j])
    && (forall s <- w.wallet :: s !in w.st.spent)
  }

  ghost predicate Provisioned(env: Env, w: World, k: nat) {
    GoodWorld(env, w) && NoImpostors(env, w) && SeedsLeft(w, k)
  }

  /** For every policy on chain the script bundle is either up to date or knows the script. */
  ghost predicate TrustedScripts(env: Env) {
    forall n: string, c: Charter ::
      var found := FindPolicy(c.manifest, n);
      found.Some? ==>
        var checked := CheckScripts(found.value.entryType.policyLink.validatorHash, env.scripts(n, c));
        checked.Ok? || checked.error.PolicyUpToDate?
  }

  lemma FewerIsEnough(env: Env, w: World, k: nat, j: nat)
    requires Provisioned(env, w, k) && j <= k
    ensures Provisioned(env, w, j)
  {
    hide GoodWorld, NoImpostors;
  }

  /** The first seed spent, one fewer is left. */
  lemma SeedTaken(w: World, x: World, k: nat)
    requires SeedsLeft(w, k + 1) && x.wallet == w.wallet[1..] && x.st.spent == w.st.spent + {w.wallet[0]}
    ensures SeedsLeft(x, k)
  {
    forall s <- x.wallet ensures s !in x.st.spent {
      var i :| 0 <= i < |x.wallet| && x.wallet[i] == s;
      assert w.wallet[i + 1] == s && w.wallet[0] != w.wallet[i + 1];
    }
  }

  // ----- installs -----

  /** The only way an install can fail is by not being needed, and then the policy is there or is
      already on its way. */
  lemma InstallFailsSoftly(env: Env, w: World, name: string, idPrefix: string)
    requires Provisioned(env, w, 1) && TrustedScripts(env) && PolicyName(env, name)
    requires InstallFrom(env, w, w.st.charter, name, idPrefix).Err?
    ensures MeansNotNeeded(InstallFrom(env, w, w.st.charter, name, idPrefix).error)
    ensures HasPolicy(w.st.charter.manifest, name) || !NoneFor(w.st.charter.pendingChanges, name)
  {
    var c := w.st.charter;
    var o := OptionsFor(env, name, idPrefix, c);
    assert w.wallet[0] in w.wallet;
    assert GoodCharter(c);
    assert Has(c.manifest, name) ==> HasPolicy(c.manifest, name);
    FindPolicyIsLookup(c.manifest, name);
    InstallNeverTripsKindChecks(env.h, c, o, w.wallet[0]);
    QueueSucceedsExactly(env.h, c, if FindPolicy(c.manifest, name).Some? then ReplaceChange else AddChange, o, w.wallet[0]);
  }

  /** An install takes one seed and leaves the manifest alone. */
  lemma InstallLeaves(env: Env, w: World, name: string, idPrefix: string, k: nat)
    requires Provisioned(env, w, k + 1) && name != "" && idPrefix != "" && name != CURRENT_SETTINGS
    requires InstallFrom(env, w, w.st.charter, name, idPrefix).Ok?
    ensures var x := InstallFrom(env, w, w.st.charter, name, idPrefix).value;
            Provisioned(env, x, k) && !NoneFor(x.st.charter.pendingChanges, name)
  {
    hide InstallPolicy, GoodWorld, Tokens;
    InstallKeeps(env, w, name, idPrefix);
    var x := InstallFrom(env, w, w.st.charter, name, idPrefix).value;
    SeedTaken(w, x, k);
  }

  // ----- commits -----

  lemma CommitLeaves(env: Env, path: Path, w: World, k: nat)
    requires Bounded(Plan(env)) && GoodEnv(env) && Provisioned(env, w, k)
    ensures var r := RunNode(Plan(env), CommitIfNeeded, path, w);
            && r.error.None? && Provisioned(env, r.state, k) && Clean(r.state) && Grows(w, r.state)
            && forall n :: !NoneFor(w.st.charter.pendingChanges, n) ==> HasPolicy(r.state.st.charter.manifest, n)
  {
    hide GoodWorld, Commit, Grows;
    CommitNode(env, path, w);
    var p := Plan(env);
    assert p.build(CommitIfNeeded, w) == BuildCommit(w);
    var r := RunNode(p, CommitIfNeeded, path, w);
    if w.st.charter.pendingChanges != [] {
      CommitSafely(env, w);
      assert r.state == w.(st := Apply(w.st, Commit(w.st.charter).value, None));
    }
  }

  lemma CommitSafely(env: Env, w: World)
    requires GoodWorld(env, w) && NoImpostors(env, w)
    ensures Commit(w.st.charter).Ok?
    ensures NoImpostors(env, w.(st := Apply(w.st, Commit(w.st.charter).value, None)))
  {
    hide Commit;
    var c := w.st.charter;
    assert GoodCharter(c);
    CommitKeeps(c);
    hide GoodWorld, GoodCharter;
    var x := w.(st := Apply(w.st, Commit(c).value, None));
    forall n | PolicyName(env, n) && Has(x.st.charter.manifest, n) ensures HasPolicy(x.st.charter.manifest, n) {
      CommitByKey(c, n);
    }
  }

  /** The reference script and the commit nested in an install. */
  lemma InstallKidsLeave(env: Env, name: string, path: Path, w: World, bound: nat, k: nat)
    requires Bounded(Plan(env)) && GoodEnv(env) && Provisioned(env, w, k) && bound > 0
    requires RanksBelow(Plan(env), [StoreRefScript(name), CommitIfNeeded], bound)
    ensures var r := RunList(Plan(env), [StoreRefScript(name), CommitIfNeeded], path, w, bound);
            && r.error.None? && Provisioned(env, r.state, k) && Clean(r.state) && Grows(w, r.state)
            && forall n :: !NoneFor(w.st.charter.pendingChanges, n) ==> HasPolicy(r.state.st.charter.manifest, n)
  {
    hide Provisioned, Grows, RunNode;
    var p, kids := Plan(env), [StoreRefScript(name), CommitIfNeeded];
    RefScriptNode(env, name, Child(path, 0), w);
    CommitLeaves(env, Child(path, 1), w, k);
    assert RunFrom(p, kids, 2, path, RunNode(p, kids[1], Child(path, 1), w).state, bound).error.None?;
    assert RunFrom(p, kids, 1, path, w, bound).state == RunNode(p, kids[1], Child(path, 1), w).state;
  }

  // ----- roles -----

  lemma SetupCompletes(env: Env, role: RoleInfo, path: Path, w: World, k: nat)
    requires Bounded(Plan(env)) && GoodEnv(env) && TrustedScripts(env) && Provisioned(env, w, k + 1)
    requires role in env.roles && GoodRole(role)
    ensures var r := RunNode(Plan(env), SetupRole(role), path, w);
            r.error.None? && Provisioned(env, r.state, k)
  {
    hide Provisioned, TrustedScripts, InstallFrom, Grows;
    var p, job := Plan(env), SetupRole(role);
    assert p.build(job, w) == BuildRole(env, w, role);
    assert RanksBelow(p, p.build(job, w).Kids(), p.rank(job));
    FewerIsEnough(env, w, k + 1, k);
    match InstallFrom(env, w, w.st.charter, role.typeName, role.idPrefix)
    case Ok(next) =>
      InstallLeaves(env, w, role.typeName, role.idPrefix, k);
      InstallKidsLeave(env, role.typeName, path, next, p.rank(job), k);
    case Err(e) =>
      FewerIsEnough(env, w, k + 1, 1);
      InstallFailsSoftly(env, w, role.typeName, role.idPrefix);
  }

  /** How many seeds the jobs can take. */
  function Setups(jobs: seq<Job>): nat {
    if jobs == [] then 0 else (if jobs[0].SetupRole? then 1 else 0) + Setups(jobs[1..])
  }

  predicate PlainJobs(env: Env, jobs: seq<Job>) {
    forall i :: 0 <= i < |jobs| ==>
      jobs[i].CommitIfNeeded? || (jobs[i].SetupRole? && GoodRole(jobs[i].role) && jobs[i].role in env.roles)
  }

  lemma {:induction false} RolesComplete(env: Env, jobs: seq<Job>, i: nat, parent: Path, w: World, bound: nat, k: nat)
    requires Bounded(Plan(env)) && RanksBelow(Plan(env), jobs, bound) && i <= |jobs|
    requires GoodEnv(env) && TrustedScripts(env) && PlainJobs(env, jobs) && Provisioned(env, w, k + Setups(jobs[i..]))
    ensures var r := RunFrom(Plan(env), jobs, i, parent, w, bound); r.error.None? && Provisioned(env, r.state, k)
    decreases |jobs| - i
  {
    hide Provisioned, TrustedScripts, RunNode, Build;
    if i < |jobs| {
      assert jobs[i..][1..] == jobs[i + 1..];
      var left := k + Setups(jobs[i + 1..]);
      var path := Child(parent, i);
      if jobs[i].CommitIfNeeded? {
        CommitLeaves(env, path, w, left);
      } else {
        SetupCompletes(env, jobs[i].role, path, w, left);
      }
      RolesComplete(env, jobs, i + 1, parent, RunNode(Plan(env), jobs[i], path, w).state, bound, k);
    }
  }

  lemma {:induction false} SetupsConcat(a: seq<Job>, b: seq<Job>)
    ensures Setups(a + b) == Setups(a) + Setups(b)
  {
    if a == [] {
      assert a + b == b;
    } else {
      assert (a + b)[1..] == a[1..] + b;
      SetupsConcat(a[1..], b);
    }
  }

  lemma {:induction false} RoleJobsPlanned(env: Env, roles: seq<RoleInfo>, w: World)
    requires GoodEnv(env) && NoImpostors(env, w) && forall role :: role in roles ==> role in env.roles
    ensures RoleJobs(roles, w.st.charter).Ok?
    ensures PlainJobs(env, RoleJobs(roles, w.st.charter).value)
    ensures Setups(RoleJobs(roles, w.st.charter).value) <= |roles|
  {
    if roles != [] {
      RoleJobsPlanned(env, roles[1..], w);
      assert roles[0] in roles && PolicyName(env, roles[0].typeName);
    }
  }

  lemma CheckCompletes(env: Env, path: Path, w: World)
    requires Bounded(Plan(env)) && GoodEnv(env) && TrustedScripts(env) && Provisioned(env, w, |env.roles|)
    ensures RunNode(Plan(env), CheckForUpdates, path, w).error.None?
  {
    hide TrustedScripts, GoodWorld, SeedsLeft;
    var p := Plan(env);
    RoleJobsPlanned(env, env.roles, w);
    var jobs := if env.autoSetup then RoleJobs(env.roles, w.st.charter).value else [];
    var kids := [CommitIfNeeded] + jobs + [CommitIfNeeded];
    assert p.build(CheckForUpdates, w) == Build(env, CheckForUpdates, w) == Facade(kids);
    assert RanksBelow(p, p.build(CheckForUpdates, w).Kids(), p.rank(CheckForUpdates));
    SetupsConcat([CommitIfNeeded] + jobs, [CommitIfNeeded]);
    SetupsConcat([CommitIfNeeded], jobs);
    assert [CommitIfNeeded][1..] == [] && kids[0..] == kids;
    FewerIsEnough(env, w, |env.roles|, Setups(kids));
    RolesComplete(env, kids, 0, path, w, p.rank(CheckForUpdates), 0);
  }

  // ----- the settings -----

  ghost predicate SettingsComing(w: World) {
    HasPolicy(w.st.charter.manifest, SETTINGS) || !NoneFor(w.st.charter.pendingChanges, SETTINGS)
  }

  lemma InstallSettingsCompletes(env: Env, path: Path, w: World, k: nat)
    requires Bounded(Plan(env)) && GoodEnv(env) && TrustedScripts(env) && Provisioned(env, w, k + 1)
    ensures var r := RunNode(Plan(env), InstallSettings(w.st.charter), path, w);
            r.error.None? && Provisioned(env, r.state, k) && SettingsComing(r.state)
  {
    hide Provisioned, TrustedScripts, InstallFrom, Grows;
    var p, job := Plan(env), InstallSettings(w.st.charter);
    assert p.build(job, w) == Build(env, job, w);
    assert RanksBelow(p, p.build(job, w).Kids(), p.rank(job));
    FewerIsEnough(env, w, k + 1, k);
    match InstallFrom(env, w, w.st.charter, SETTINGS, "set")
    case Ok(next) =>
      InstallLeaves(env, w, SETTINGS, "set", k);
      InstallKidsLeave(env, SETTINGS, path, next, p.rank(job), k);
    case Err(e) =>
      FewerIsEnough(env, w, k + 1, 1);
      InstallFailsSoftly(env, w, SETTINGS, "set");
  }

  lemma SettingsThere(w: World)
    requires HasPolicy(w.st.charter.manifest, SETTINGS)
    ensures SettingsPolicy(w.st.charter).Ok?
  {
  }

  lemma CreateRecordCompletes(env: Env, path: Path, w: World, k: nat)
    requires Bounded(Plan(env)) && env.hasInitialSettings
    requires Provisioned(env, w, k + 1) && HasPolicy(w.st.charter.manifest, SETTINGS)
    ensures var r := RunNode(Plan(env), CreateSettingsRecord, path, w);
            && r.error.None? && Provisioned(env, r.state, k)
            && r.state.st.charter == w.st.charter && r.state.settingsRecord.Some?
  {
    hide GoodWorld, SettingsPolicy;
    var p := Plan(env);
    SettingsThere(w);
    assert w.wallet[0] in w.wallet;
    SettingsRecordKeeps(env, w);
    var x := BuildSettingsRecord(env, w).next;
    SeedTaken(w, x, k);
    assert p.build(CreateSettingsRecord, w) == BuildSettingsRecord(env, w);
  }

  lemma AddSettingsLeaves(env: Env, w: World, k: nat)
    requires GoodEnv(env) && Provisioned(env, w, k) && HasPolicy(w.st.charter.manifest, SETTINGS)
    requires w.settingsRecord.Some?
    ensures var o := BuildAddSettings(env, w);
            && o.Txn? && o.children == [CommitIfNeeded] && Provisioned(env, o.next, k)
            && HasPolicy(o.next.st.charter.manifest, SETTINGS)
  {
    hide GoodWorld;
    SettingsThere(w);
    var entry := ManifestEntry(w.settingsRecord.value, None, NamedTokenRef);
    AddSettingsKeeps(env, w, entry);
    var m, x := w.st.charter.manifest, BuildAddSettings(env, w).next;
    GoodManifest(env, w);
    FromEntriesSnoc(m, CURRENT_SETTINGS, entry);
    CurrentSettingsIsNoPolicy(env);
    forall n | PolicyName(env, n) && Has(x.st.charter.manifest, n) ensures HasPolicy(x.st.charter.manifest, n) {
      GetOfPut(m, CURRENT_SETTINGS, entry, n);
    }
  }

  lemma CurrentSettingsIsNoPolicy(env: Env)
    requires GoodEnv(env)
    ensures !PolicyName(env, CURRENT_SETTINGS)
  {
    assert |SETTINGS| != |CURRENT_SETTINGS|;
    forall i | 0 <= i < |env.roles| ensures env.roles[i].typeName != CURRENT_SETTINGS {
      assert env.roles[i] in env.roles && GoodRole(env.roles[i]);
    }
  }

  lemma GoodManifest(env: Env, w: World)
    requires GoodWorld(env, w)
    ensures Distinct(w.st.charter.manifest)
  {
    assert GoodCharter(w.st.charter);
  }

  lemma AddSettingsCompletes(env: Env, path: Path, w: World, k: nat)
    requires Bounded(Plan(env)) && GoodEnv(env) && Provisioned(env, w, k)
    requires HasPolicy(w.st.charter.manifest, SETTINGS) && w.settingsRecord.Some?
    ensures var r := RunNode(Plan(env), AddCurrentSettings, path, w); r.error.None? && Provisioned(env, r.state, k)
  {
    hide Provisioned, BuildAddSettings;
    var p, o := Plan(env), BuildAddSettings(env, w);
    assert p.build(AddCurrentSettings, w) == o;
    assert RanksBelow(p, p.build(AddCurrentSettings, w).Kids(), p.rank(AddCurrentSettings));
    AddSettingsLeaves(env, w, k);
    var kid := RunNode(p, CommitIfNeeded, Child(path, 0), o.next);
    CommitLeaves(env, Child(path, 0), o.next, k);
    assert RunFrom(p, o.children, 1, path, kid.state, p.rank(AddCurrentSettings)) == Run(kid.state, [], None);
  }

  // ----- the whole run -----

  /** What a top-level job needs of the world it is built in. */
  ghost predicate Suits(env: Env, job: Job, w: World) {
    match job
    case InstallSettings(known) => known == w.st.charter && Provisioned(env, w, |env.roles| + 2)
    case CommitIfNeeded => SettingsComing(w) && Provisioned(env, w, |env.roles| + 1)
    case CreateSettingsRecord => HasPolicy(w.st.charter.manifest, SETTINGS) && Provisioned(env, w, |env.roles| + 1)
    case AddCurrentSettings =>
      HasPolicy(w.st.charter.manifest, SETTINGS) && w.settingsRecord.Some? && Provisioned(env, w, |env.roles|)
    case CheckForUpdates => Provisioned(env, w, |env.roles|)
    case _ => false
  }

  /** Which job may come after which at the top level. */
  predicate Follows(a: Job, b: Job) {
    match a
    case InstallSettings(_) => b.CommitIfNeeded?
    case CommitIfNeeded => b.CreateSettingsRecord? || b.CheckForUpdates?
    case CreateSettingsRecord => b.AddCurrentSettings?
    case AddCurrentSettings => b.CheckForUpdates?
    case _ => false
  }

  lemma TopJobCompletes(env: Env, job: Job, path: Path, w: World)
    requires Bounded(Plan(env)) && GoodEnv(env) && TrustedScripts(env) && env.hasInitialSettings && Suits(env, job, w)
    ensures var r := RunNode(Plan(env), job, path, w);
            r.error.None? && forall b :: Follows(job, b) ==> Suits(env, b, r.state)
  {
    hide Provisioned, TrustedScripts, RunNode, NoneFor;
    match job
    case InstallSettings(_) => InstallSettingsCompletes(env, path, w, |env.roles| + 1);
    case CommitIfNeeded =>
      CommitLeaves(env, path, w, |env.roles| + 1);
      GrowsAt(w, RunNode(Plan(env), job, path, w).state);
      FewerIsEnough(env, RunNode(Plan(env), job, path, w).state, |env.roles| + 1, |env.roles|);
    case CreateSettingsRecord => CreateRecordCompletes(env, path, w, |env.roles|);
    case AddCurrentSettings => AddSettingsCompletes(env, path, w, |env.roles|);
    case CheckForUpdates => CheckCompletes(env, path, w);
  }

  lemma {:induction false} TopJobsComplete(env: Env, jobs: seq<Job>, i: nat, w: World)
    requires Bounded(Plan(env)) && RanksBelow(Plan(env), jobs, 3) && i <= |jobs|
    requires GoodEnv(env) && TrustedScripts(env) && env.hasInitialSettings
    requires forall j :: i <= j < |jobs| - 1 ==> Follows(jobs[j], jobs[j + 1])
    requires i < |jobs| ==> Suits(env, jobs[i], w)
    ensures RunFrom(Plan(env), jobs, i, [], w, 3).error.None?
    decreases |jobs| - i
  {
    hide TrustedScripts, RunNode, Suits, Follows;
    if i < |jobs| {
      TopJobCompletes(env, jobs[i], Child([], i), w);
      TopJobsComplete(env, jobs, i + 1, RunNode(Plan(env), jobs[i], Child([], i), w).state);
    }
  }

  lemma TopJobsFollow(env: Env, w: World)
    requires Provisioned(env, w, |env.roles| + 2)
    ensures TopJobs(env, w.st.charter).Ok?
    ensures var jobs := TopJobs(env, w.st.charter).value;
            && jobs != [] && Suits(env, jobs[0], w)
            && forall j :: 0 <= j < |jobs| - 1 ==> Follows(jobs[j], jobs[j + 1])
  {
    FewerIsEnough(env, w, |env.roles| + 2, |env.roles| + 1);
    FewerIsEnough(env, w, |env.roles| + 2, |env.roles|);
    assert PolicyName(env, SETTINGS);
    hide GoodWorld, SeedsLeft;
  }

  /** Main result: an upgrade of a good world completes when every role, the settings policy and the
      settings record have a fresh seed; and so it ends with nothing pending and a policy for every
      active role. */
  lemma UpgradeCompletes(env: Env, w: World)
    requires GoodEnv(env) && TrustedScripts(env) && env.hasInitialSettings && Provisioned(env, w, |env.roles| + 2)
    ensures UpgradeRun(env, w).Ok? && UpgradeRun(env, w).value.error.None?
    ensures Upgraded(env, UpgradeRun(env, w).value.state)
    ensures UpgradeSettings.SettingsDone(env, w, UpgradeRun(env, w).value.state)
  {
    hide TrustedScripts, Suits, Follows, TopJobs, Upgraded, UpgradeSettings.SettingsDone;
    PlanIsBounded(env);
    TopJobsFollow(env, w);
    TopJobsShape(env, w.st.charter);
    TopJobsComplete(env, TopJobs(env, w.st.charter).value, 0, w);
    UpgradeTheorem(env, w);
    UpgradeSettings.UpgradeRegistersSettings(env, w);
  }

  /** In particular the first upgrade of a newly minted charter completes, and registers a settings record
      if the Capo has settings. */
  lemma FirstUpgradeCompletes(env: Env, seed: TxOutputId, scripts: Scripts, wallet: seq<TxOutputId>)
    requires GoodEnv(env) && TrustedScripts(env) && env.hasInitialSettings
    requires |wallet| >= |env.roles| + 2 && seed !in wallet
    requires forall i, j :: 0 <= i < j < |wallet| ==> wallet[i] != wallet[j]
    requires GoodHash(env.h, {seed} + set s | s in wallet)
    ensures var w := World(Bootstrap(env.h, seed, scripts), wallet, None);
            && UpgradeRun(env, w).Ok? && UpgradeRun(env, w).value.error.None?
            && Upgraded(env, UpgradeRun(env, w).value.state)
            && ((exists role :: role in env.roles && role.typeName == "settings") ==>
                  UpgradeSettings.Registered(env, w, UpgradeRun(env, w).value.state))
  {
    hide TrustedScripts, Upgraded, UpgradeRun, Inv, UpgradeSettings.Registered;
    var w := World(Bootstrap(env.h, seed, scripts), wallet, None);
    GoodHashOnFewer(env.h, {seed}, {seed} + set s | s in wallet);
    BootstrapInv(env.h, seed, scripts);
    UpgradeCompletes(env, w);
  }

  // ----- running the plan on the batch -----

  /** The upgrade as it is run, on the mutable batch. */
  method RunUpgrade(env: Env, w: World) returns (planned: bool, error: Option<Error>, final: World)
    ensures planned == UpgradeRun(env, w).Ok?
    ensures planned ==> error == UpgradeRun(env, w).value.error && final == UpgradeRun(env, w).value.state
    ensures planned && error.None? && GoodEnv(env) && GoodWorld(env, w) ==>
              Upgraded(env, final) && UpgradeSettings.SettingsDone(env, w, final)
    ensures GoodEnv(env) && TrustedScripts(env) && env.hasInitialSettings && Provisioned(env, w, |env.roles| + 2) ==>
              planned && error.None?
  {
    hide GoodEnv, TrustedScripts, Provisioned, GoodWorld, Upgraded, TopJobs, UpgradeSettings.SettingsDone;
    if GoodEnv(env) && TrustedScripts(env) && env.hasInitialSettings && Provisioned(env, w, |env.roles| + 2) {
      UpgradeCompletes(env, w);
    }
    final := w;
    error := None;
    var jobs := TopJobs(env, w.st.charter);
    planned := jobs.Ok?;
    if jobs.Ok? {
      PlanIsBounded(env);
      TopJobsShape(env, w.st.charter);
      var batch := new Batch<Job, World, Error>(w);
      error := batch.ResolveMultipleTxns(Plan(env), jobs.value, [], 3);
      final := batch.state;
      if error.None? && GoodEnv(env) && GoodWorld(env, w) {
        UpgradeTheorem(env, w);
        UpgradeSettings.UpgradeRegistersSettings(env, w);
      }
    }
  }
}
