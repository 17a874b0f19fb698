/**
 * What an upgrade does to scripts: after a role's node the role's policy has the script that its
 * bundle put forward, or the bundle had nothing newer; and the nodes of the other roles leave it
 * alone.
 */
module UpgradeScripts {
  import opened Wrappers
  import opened OrderedMap
  import opened CharterModel
  import opened CharterProtocol
  import opened CharterInvariant
  import opened CharterSafety
  import opened BatchCommit
  import opened Scheduler
  import opened UpgradePlan
  import opened UpgradeSafety

  function PolicyOf(w: World, n: string): Option<ManifestEntry> {
    Get(w.st.charter.manifest, n)
  }

  function HashOf(e: ManifestEntry): Option<string>
    requires IsPolicy(e)
  {
    e.entryType.policyLink.validatorHash
  }

  /** The policy has this prefix, script and configuration. */
  predicate HasScript(e: ManifestEntry, idPrefix: string, scriptHash: Option<string>, config: string) {
    && IsPolicy(e) && e.entryType.idPrefix == idPrefix
    && HashOf(e) == scriptHash && e.entryType.policyLink.config == config
  }

  /** The role's node found the world `found`; in `x` its policy is the one that the bundle's scripts
      called for then, installed with the role's prefix and the configuration given. */
  predicate Served(env: Env, role: RoleInfo, found: World, x: World) {
    var n := role.typeName;
    var scripts := env.scripts(n, found.st.charter);
    && HasPolicy(x.st.charter.manifest, n)
    && (HasScript(PolicyOf(x, n).value, role.idPrefix, scripts.next, env.config)
        || (PolicyOf(x, n) == PolicyOf(found, n)
            && CheckScripts(HashOf(PolicyOf(x, n).value), scripts) == Err(PolicyUpToDate)))
  }

  // ----- one role's node -----

  /** On a clean charter an install leaves one pending change, with the bundle's next script. */
  lemma InstallPends(env: Env, w: World, name: string, idPrefix: string)
    requires GoodWorld(env, w) && Clean(w) && InstallFrom(env, w, w.st.charter, name, idPrefix).Ok?
    ensures var pending := InstallFrom(env, w, w.st.charter, name, idPrefix).value.st.charter.pendingChanges;
            && |pending| == 1 && pending[0].DelegateChange? && pending[0].role == DgDataRole(name)
            && pending[0].dgtLink.Some? && !pending[0].action.Remove? && pending[0].action.idPrefix == idPrefix
            && pending[0].dgtLink.value.validatorHash == env.scripts(name, w.st.charter).next
            && pending[0].dgtLink.value.config == env.config
    ensures InstallFrom(env, w, w.st.charter, name, idPrefix).value.st.charter.manifest == w.st.charter.manifest
  {
    hide GoodCharter, Conserved, UniqueNames, GoodHash, QueueChange, Tokens;
    var c, o := w.st.charter, OptionsFor(env, name, idPrefix, w.st.charter);
    var kind := if FindPolicy(c.manifest, name).Some? then ReplaceChange else AddChange;
    QueuedChange(env.h, c, kind, o, w.wallet[0]);
  }

  /** A commit node gives the one pending change's name its link, and every other key its old value. */
  lemma CommitInstalls(env: Env, path: Path, w: World)
    requires Bounded(Plan(env)) && GoodEnv(env) && GoodWorld(env, w)
    ensures var x := RunNode(Plan(env), CommitIfNeeded, path, w).state;
            && (forall k :: NoneFor(w.st.charter.pendingChanges, k) ==> PolicyOf(x, k) == PolicyOf(w, k))
            && forall k :: !NoneFor(w.st.charter.pendingChanges, k) ==>
                 HasPolicy(x.st.charter.manifest, k)
                 && exists p :: p in w.st.charter.pendingChanges && IsPendingFor(p, k) && Installs(p, PolicyOf(x, k).value)
  {
    hide Commit, GoodCharter, Conserved, UniqueNames, GoodHash, NoneFor;
    var p, c := Plan(env), w.st.charter;
    assert p.build(CommitIfNeeded, w) == BuildCommit(w);
    if c.pendingChanges != [] {
      CommitKeeps(c);
      forall k
        ensures var m := Commit(c).value.charter.manifest;
                if NoneFor(c.pendingChanges, k) then Get(m, k) == Get(c.manifest, k)
                else HasPolicy(m, k) &&
                     exists q :: q in c.pendingChanges && IsPendingFor(q, k) && Installs(q, Get(m, k).value)
      {
        CommitByKey(c, k);
      }
    } else {
      forall k ensures NoneFor(c.pendingChanges, k) { NothingForAny(k); }
    }
  }

  /** An install's nested transactions end in the world that its commit leaves. */
  lemma InstallKidsEnd(env: Env, name: string, path: Path, w: World, bound: nat)
    requires Bounded(Plan(env)) && GoodEnv(env) && GoodWorld(env, w)
    requires RanksBelow(Plan(env), [StoreRefScript(name), CommitIfNeeded], bound)
    ensures RunList(Plan(env), [StoreRefScript(name), CommitIfNeeded], path, w, bound).state
            == RunNode(Plan(env), CommitIfNeeded, Child(path, 1), w).state
  {
    hide GoodWorld, RunNode;
    var p, kids := Plan(env), [StoreRefScript(name), CommitIfNeeded];
    RefScriptNode(env, name, Child(path, 0), w);
    CommitNode(env, Child(path, 1), w);
    assert RunFrom(p, kids, 2, path, RunNode(p, kids[1], Child(path, 1), w).state, bound).error.None?;
    assert RunFrom(p, kids, 1, path, w, bound).state == RunNode(p, kids[1], Child(path, 1), w).state;
  }

  /** On a clean charter the only install that is not needed is an up-to-date one. */
  lemma NotNeededMeansUpToDate(env: Env, w: World, role: RoleInfo)
    requires GoodWorld(env, w) && Clean(w)
    requires InstallFrom(env, w, w.st.charter, role.typeName, role.idPrefix).Err?
    requires MeansNotNeeded(InstallFrom(env, w, w.st.charter, role.typeName, role.idPrefix).error)
    ensures Served(env, role, w, w)
  {
    assert GoodCharter(w.st.charter);
    FindPolicyIsLookup(w.st.charter.manifest, role.typeName);
  }

  /** Main result: a role's node that completes leaves the role's policy with the script that its
      bundle put forward, or as it was if the bundle was up to date; and every other policy alone. */
  lemma RoleNodeServes(env: Env, role: RoleInfo, path: Path, w: World)
    requires Bounded(Plan(env)) && GoodEnv(env) && GoodWorld(env, w) && GoodRole(role) && Clean(w)
    requires RunNode(Plan(env), SetupRole(role), path, w).error.None?
    ensures var x := RunNode(Plan(env), SetupRole(role), path, w).state;
            Served(env, role, w, x) && forall k :: k != role.typeName ==> PolicyOf(x, k) == PolicyOf(w, k)
  {
    hide GoodWorld, InstallFrom, PolicyOf, NoneFor, RunNode;
    var n := role.typeName;
    RoleNodeRuns(env, role, path, w);
    match InstallFrom(env, w, w.st.charter, n, role.idPrefix)
    case Ok(next) =>
      InstallKeeps(env, w, n, role.idPrefix);
      InstallPends(env, w, n, role.idPrefix);
      CommitInstalls(env, Child(path, 1), next);
      OnlyOnePending(next.st.charter.pendingChanges, n);
      SamePolicies(w, next);
      hide HashOf;
      assert !NoneFor(next.st.charter.pendingChanges, n);
    case Err(e) =>
      NotNeededMeansUpToDate(env, w, role);
  }

  /** Where a role's node ends: where the commit nested in it does, or where it began. */
  lemma RoleNodeRuns(env: Env, role: RoleInfo, path: Path, w: World)
    requires Bounded(Plan(env)) && GoodEnv(env) && GoodWorld(env, w) && GoodRole(role) && Clean(w)
    requires RunNode(Plan(env), SetupRole(role), path, w).error.None?
    ensures var installed := InstallFrom(env, w, w.st.charter, role.typeName, role.idPrefix);
            var x := RunNode(Plan(env), SetupRole(role), path, w).state;
            if installed.Ok? then x == RunNode(Plan(env), CommitIfNeeded, Child(path, 1), installed.value).state
            else MeansNotNeeded(installed.error) && x == w
  {
    hide GoodWorld, InstallFrom;
    var p, job := Plan(env), SetupRole(role);
    assert p.build(job, w) == BuildRole(env, w, role);
    assert RanksBelow(p, p.build(job, w).Kids(), p.rank(job));
    match InstallFrom(env, w, w.st.charter, role.typeName, role.idPrefix)
    case Ok(next) =>
      InstallKeeps(env, w, role.typeName, role.idPrefix);
      InstallKidsEnd(env, role.typeName, path, next, p.rank(job));
    case Err(e) =>
      assert RunFrom(p, [], 0, path, w, p.rank(job)).state == w;
  }

  lemma OnlyOnePending(pending: seq<PendingChange>, n: string)
    requires |pending| == 1 && pending[0].DelegateChange? && pending[0].role == DgDataRole(n)
    ensures forall k :: NoneFor(pending, k) <==> k != n
    ensures forall p :: p in pending ==> p == pending[0]
  {
  }

  lemma SamePolicies(w: World, x: World)
    requires w.st.charter.manifest == x.st.charter.manifest
    ensures forall k :: PolicyOf(w, k) == PolicyOf(x, k)
  {
  }

  // ----- the roles in turn -----

  /** The world that job `j` finds when the jobs from `i` on run from `w`. */
  function FoundBy(env: Env, jobs: seq<Job>, i: nat, j: nat, parent: Path, w: World): World
    requires Bounded(Plan(env)) && i <= j <= |jobs|
    decreases j - i
  {
    if i == j then w else FoundBy(env, jobs, i + 1, j, parent, RunNode(Plan(env), jobs[i], Child(parent, i), w).state)
  }

  /** No two of the jobs from `i` on set up the same role. */
  predicate DistinctSetups(jobs: seq<Job>) {
    forall a, b :: 0 <= a < b < |jobs| && jobs[a].SetupRole? && jobs[b].SetupRole? ==>
                     jobs[a].role.typeName != jobs[b].role.typeName
  }

  /** A node of the upgrade, on a clean charter, leaves it clean and the policies of other roles alone. */
  lemma NodeLeavesAlone(env: Env, job: Job, path: Path, w: World)
    requires Bounded(Plan(env)) && GoodEnv(env) && GoodWorld(env, w) && RoleIsGood(job)
    requires job.CommitIfNeeded? || (job.SetupRole? && Clean(w))
    requires RunNode(Plan(env), job, path, w).error.None?
    ensures var x := RunNode(Plan(env), job, path, w).state;
            && GoodWorld(env, x) && Clean(x)
            && (Clean(w) ==> forall k :: (job.SetupRole? ==> k != job.role.typeName) ==> PolicyOf(x, k) == PolicyOf(w, k))
            && (job.SetupRole? ==> Served(env, job.role, w, x))
  {
    hide GoodWorld, RunNode, PolicyOf, Served, Grows;
    NodeKeeps(env, job, path, w);
    if job.CommitIfNeeded? {
      CommitNode(env, path, w);
      CommitInstalls(env, path, w);
      if Clean(w) {
        forall k ensures NoneFor(w.st.charter.pendingChanges, k) { NothingForAny(k); }
      }
    } else {
      RoleNode(env, job.role, path, w);
      RoleNodeServes(env, job.role, path, w);
    }
  }

  lemma ServedStays(env: Env, role: RoleInfo, found: World, x: World, y: World)
    requires Served(env, role, found, x) && PolicyOf(x, role.typeName) == PolicyOf(y, role.typeName)
    ensures Served(env, role, found, y)
  {
  }

  /** Jobs that do not set up the named role leave its policy alone. */
  lemma {:induction false} RestLeavesAlone(env: Env, jobs: seq<Job>, i: nat, parent: Path, w: World, bound: nat, n: string)
    requires Bounded(Plan(env)) && RanksBelow(Plan(env), jobs, bound) && i <= |jobs|
    requires GoodEnv(env) && GoodWorld(env, w) && SetupsAndCommits(jobs) && Clean(w)
    requires forall j :: i <= j < |jobs| && jobs[j].SetupRole? ==> jobs[j].role.typeName != n
    requires RunFrom(Plan(env), jobs, i, parent, w, bound).error.None?
    ensures PolicyOf(RunFrom(Plan(env), jobs, i, parent, w, bound).state, n) == PolicyOf(w, n)
    decreases |jobs| - i
  {
    hide GoodWorld, RunNode, PolicyOf, Served, Build;
    if i < |jobs| {
      var first := RunNode(Plan(env), jobs[i], Child(parent, i), w);
      assert first.error.None?;
      NodeLeavesAlone(env, jobs[i], Child(parent, i), w);
      RestLeavesAlone(env, jobs, i + 1, parent, first.state, bound, n);
    }
  }

  /** Main result: when the role nodes have run in turn, every role is served as its node found the
      charter: no later node has undone it. */
  lemma {:induction false} RolesServed(env: Env, jobs: seq<Job>, i: nat, parent: Path, w: World, bound: nat)
    requires Bounded(Plan(env)) && RanksBelow(Plan(env), jobs, bound) && i <= |jobs|
    requires GoodEnv(env) && GoodWorld(env, w) && SetupsAndCommits(jobs) && DistinctSetups(jobs)
    requires Clean(w) || (i < |jobs| && jobs[i].CommitIfNeeded?)
    requires RunFrom(Plan(env), jobs, i, parent, w, bound).error.None?
    ensures forall j :: i <= j < |jobs| && jobs[j].SetupRole? ==>
              Served(env, jobs[j].role, FoundBy(env, jobs, i, j, parent, w), RunFrom(Plan(env), jobs, i, parent, w, bound).state)
    decreases |jobs| - i
  {
    hide GoodWorld, RunNode, PolicyOf, Served, Build;
    if i < |jobs| {
      var first := RunNode(Plan(env), jobs[i], Child(parent, i), w);
      var rest := RunFrom(Plan(env), jobs, i + 1, parent, first.state, bound);
      assert first.error.None?;
      NodeLeavesAlone(env, jobs[i], Child(parent, i), w);
      RolesServed(env, jobs, i + 1, parent, first.state, bound);
      if jobs[i].SetupRole? {
        RestLeavesAlone(env, jobs, i + 1, parent, first.state, bound, jobs[i].role.typeName);
        ServedStays(env, jobs[i].role, w, first.state, rest.state);
      }
    }
  }

  // ----- the whole run -----

  /** The roles are the keys of one object. */
  predicate DistinctRoles(roles: seq<RoleInfo>) {
    forall i, j :: 0 <= i < j < |roles| ==> roles[i].typeName != roles[j].typeName
  }

  lemma {:induction false} RoleJobsDistinct(roles: seq<RoleInfo>, c: Charter)
    requires RoleJobs(roles, c).Ok? && DistinctRoles(roles)
    ensures DistinctSetups(RoleJobs(roles, c).value)
    ensures forall job :: job in RoleJobs(roles, c).value ==> job.SetupRole? && job.role in roles
  {
    if roles != [] {
      RoleJobsDistinct(roles[1..], c);
      var jobs, rest := RoleJobs(roles, c).value, RoleJobs(roles[1..], c).value;
      if jobs != rest {
        forall b | 0 < b < |jobs| ensures jobs[b].role.typeName != roles[0].typeName {
          assert jobs[b] == rest[b - 1] && rest[b - 1] in rest;
          var k :| 0 <= k < |roles| - 1 && roles[1..][k] == rest[b - 1].role;
          assert roles[k + 1].typeName != roles[0].typeName;
        }
      }
    }
  }

  /** Every role that "check for updates" sets up is served, as its node found the charter. */
  ghost predicate AllServed(env: Env, path: Path, w: World, x: World)
    requires Bounded(Plan(env))
  {
    var kids := Build(env, CheckForUpdates, w).Kids();
    forall j :: 0 <= j < |kids| && kids[j].SetupRole? ==>
      Served(env, kids[j].role, FoundBy(env, kids, 0, j, path, w), x)
  }

  lemma CheckServes(env: Env, path: Path, w: World)
    requires Bounded(Plan(env)) && GoodEnv(env) && GoodWorld(env, w) && DistinctRoles(env.roles)
    requires RunNode(Plan(env), CheckForUpdates, path, w).error.None?
    ensures AllServed(env, path, w, RunNode(Plan(env), CheckForUpdates, path, w).state)
  {
    hide GoodWorld, Served;
    var p := Plan(env);
    assert p.build(CheckForUpdates, w) == Build(env, CheckForUpdates, w);
    CheckIsFacadeOrFails(env, w);
    var kids := CheckKids(env, w);
    KidsDistinct(env, w);
    RolesServed(env, kids, 0, path, w, p.rank(CheckForUpdates));
  }

  lemma KidsDistinct(env: Env, w: World)
    requires Build(env, CheckForUpdates, w).Facade? && DistinctRoles(env.roles)
    ensures DistinctSetups(Build(env, CheckForUpdates, w).children)
  {
    var kids := Build(env, CheckForUpdates, w).children;
    if env.autoSetup {
      RoleJobsDistinct(env.roles, w.st.charter);
      var jobs := RoleJobs(env.roles, w.st.charter).value;
      assert forall i :: 0 < i <= |jobs| ==> kids[i] == jobs[i - 1];
    }
  }

  lemma {:induction false} LastNodeServes(env: Env, jobs: seq<Job>, i: nat, w: World)
    requires Bounded(Plan(env)) && RanksBelow(Plan(env), jobs, 3) && i < |jobs|
    requires GoodEnv(env) && GoodWorld(env, w) && DistinctRoles(env.roles) && jobs[|jobs| - 1] == CheckForUpdates
    requires PlannedFor(jobs[i], w)
    requires forall j :: i <= j < |jobs| ==> RoleIsGood(jobs[j])
    requires forall j :: i < j < |jobs| ==> !jobs[j].InstallSettings?
    requires RunFrom(Plan(env), jobs, i, [], w, 3).error.None?
    ensures AllServed(env, Child([], |jobs| - 1), FoundBy(env, jobs, i, |jobs| - 1, [], w),
                      RunFrom(Plan(env), jobs, i, [], w, 3).state)
    decreases |jobs| - i
  {
    hide GoodWorld, Grows, RunNode, Build, AllServed;
    var first := RunNode(Plan(env), jobs[i], Child([], i), w);
    assert first.error.None?;
    NodeKeeps(env, jobs[i], Child([], i), w);
    if i + 1 == |jobs| {
      CheckServes(env, Child([], i), w);
      assert RunFrom(Plan(env), jobs, i + 1, [], first.state, 3).state == first.state;
    } else {
      LastNodeServes(env, jobs, i + 1, first.state);
    }
  }

  /** Main result: after an upgrade that completes, every role that it set up has the script that its
      bundle put forward when its node ran, or was up to date then and is as it was. */
  lemma UpgradeServesEveryRole(env: Env, w: World)
    requires Bounded(Plan(env)) && GoodEnv(env) && GoodWorld(env, w) && DistinctRoles(env.roles)
    requires UpgradeRun(env, w).Ok? && UpgradeRun(env, w).value.error.None?
    ensures var jobs := TopJobs(env, w.st.charter).value;
            var last := |jobs| - 1;
            && last >= 0 && jobs[last] == CheckForUpdates
            && AllServed(env, Child([], last), FoundBy(env, jobs, 0, last, [], w), UpgradeRun(env, w).value.state)
  {
    hide GoodWorld, RunFrom, TopJobs, AllServed;
    TopJobsShape(env, w.st.charter);
    LastNodeServes(env, TopJobs(env, w.st.charter).value, 0, w);
  }
}
