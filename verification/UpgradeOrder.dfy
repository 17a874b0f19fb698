/**
 * How an upgrade run proceeds: every role's change is queued on a charter with nothing
 * pending, so each install's own commit has finished by then.
 */
module UpgradeOrder {
  import opened Wrappers
  import opened OrderedMap
  import opened CharterModel
  import opened CharterProtocol
  import opened CharterInvariant
  import opened CharterSafety
  import opened Scheduler
  import opened SchedulerOrder
  import opened UpgradePlan
  import opened UpgradeSafety

  /** Walking the log, every role's transaction is built on a charter with nothing pending. */
  predicate QueuedOnClean(log: seq<Event<Job, World>>, w: World)
    decreases |log|
  {
    log != [] ==>
      (log[0].Built? && log[0].node.SetupRole? ==> Clean(w)) &&
      QueuedOnClean(log[1..], if log[0].Built? then log[0].next else w)
  }

  lemma {:induction false} QueuedOnCleanConcat(env: Env, a: seq<Event<Job, World>>, b: seq<Event<Job, World>>,
                                                w: World, x: World)
    requires JustInTime(Plan(env), a, w, x)
    requires QueuedOnClean(a, w) && QueuedOnClean(b, x)
    ensures QueuedOnClean(a + b, w)
    decreases |a|
  {
    if a == [] {
      assert a + b == b;
    } else {
      assert (a + b)[1..] == a[1..] + b;
      QueuedOnCleanConcat(env, a[1..], b, if a[0].Built? then a[0].next else w, x);
    }
  }

  /** No role's change is queued anywhere in this log. */
  predicate NoSetups(log: seq<Event<Job, World>>) {
    forall i :: 0 <= i < |log| && log[i].Built? ==> !log[i].node.SetupRole?
  }

  lemma {:induction false} NoSetupsIsClean(log: seq<Event<Job, World>>, w: World)
    requires NoSetups(log)
    ensures QueuedOnClean(log, w)
    decreases |log|
  {
    if log != [] {
      NoSetupsIsClean(log[1..], if log[0].Built? then log[0].next else w);
    }
  }

  lemma CommitHasNoSetups(env: Env, path: Path, w: World)
    requires Bounded(Plan(env))
    ensures NoSetups(RunNode(Plan(env), CommitIfNeeded, path, w).log)
  {
    var p := Plan(env);
    assert p.build(CommitIfNeeded, w) == BuildCommit(w);
  }

  lemma RefScriptHasNoSetups(env: Env, name: string, path: Path, w: World)
    requires Bounded(Plan(env))
    ensures NoSetups(RunNode(Plan(env), StoreRefScript(name), path, w).log)
  {
    var p := Plan(env);
    assert p.build(StoreRefScript(name), w) == Txn(w, []);
  }

  lemma NoSetupsConcat(a: seq<Event<Job, World>>, b: seq<Event<Job, World>>)
    requires NoSetups(a) && NoSetups(b)
    ensures NoSetups(a + b)
  {
  }

  lemma InstallKidsHaveNoSetups(env: Env, name: string, path: Path, w: World, bound: nat)
    requires Bounded(Plan(env)) && bound > 0
    requires RanksBelow(Plan(env), [StoreRefScript(name), CommitIfNeeded], bound)
    ensures NoSetups(RunList(Plan(env), [StoreRefScript(name), CommitIfNeeded], path, w, bound).log)
  {
    hide NoSetups, RunNode;
    var p, kids := Plan(env), [StoreRefScript(name), CommitIfNeeded];
    var first := RunNode(p, kids[0], Child(path, 0), w);
    RefScriptHasNoSetups(env, name, Child(path, 0), w);
    var second := RunNode(p, kids[1], Child(path, 1), first.state);
    CommitHasNoSetups(env, Child(path, 1), first.state);
    var last := if second.error.None? then RunFrom(p, kids, 2, path, second.state, bound).log else [];
    RegistrationsHaveNoSetups(path, 2);
    NoSetupsConcat(second.log, last);
    NoSetupsConcat(first.log, second.log + last);
    assert second.log + [] == second.log;
    NoSetupsConcat(first.log, second.log);
    NoSetupsConcat(Registrations(path, 2), first.log + (second.log + last));
    NoSetupsConcat(Registrations(path, 2), first.log);
    var rest := RunFrom(p, kids, 1, path, first.state, bound);
    assert rest.log == second.log + last;
    assert RunFrom(p, kids, 0, path, w, bound).log == first.log + rest.log || first.error.Some?;
  }

  lemma RegistrationsHaveNoSetups(path: Path, count: nat)
    ensures NoSetups(Registrations(path, count)) && NoSetups([])
  {
  }

  lemma RoleQueuedOnClean(env: Env, role: RoleInfo, path: Path, w: World)
    requires Bounded(Plan(env)) && Clean(w)
    ensures QueuedOnClean(RunNode(Plan(env), SetupRole(role), path, w).log, w)
  {
    hide InstallFrom;
    var p, job := Plan(env), SetupRole(role);
    assert p.build(job, w) == BuildRole(env, w, role);
    var r, o := RunNode(p, job, path, w), BuildRole(env, w, role);
    if o.Txn? {
      assert RanksBelow(p, p.build(job, w).Kids(), p.rank(job));
      if o.children != [] {
        InstallKidsHaveNoSetups(env, role.typeName, path, o.next, p.rank(job));
      }
      var below := RunList(p, o.children, path, o.next, p.rank(job)).log;
      assert r.log[1..][1..] == below;
      NoSetupsIsClean(below, o.next);
      assert r.log[0].Building? && r.log[1..][0] == Built(path, job, o.next, |o.children|);
    } else {
      NoSetupsIsClean(r.log, w);
    }
  }

  lemma {:induction false} RolesQueuedOnClean(env: Env, jobs: seq<Job>, i: nat, parent: Path, w: World, bound: nat)
    requires Bounded(Plan(env)) && RanksBelow(Plan(env), jobs, bound) && i <= |jobs|
    requires GoodEnv(env) && GoodWorld(env, w) && SetupsAndCommits(jobs)
    requires Clean(w) || (i < |jobs| && jobs[i].CommitIfNeeded?)
    ensures QueuedOnClean(RunFrom(Plan(env), jobs, i, parent, w, bound).log, w)
    decreases |jobs| - i
  {
    hide GoodWorld, RunNode, Build;
    if i < |jobs| {
      var path := Child(parent, i);
      var first := RunNode(Plan(env), jobs[i], path, w);
      if jobs[i].CommitIfNeeded? {
        CommitHasNoSetups(env, path, w);
        NoSetupsIsClean(first.log, w);
        CommitNode(env, path, w);
      } else {
        RoleQueuedOnClean(env, jobs[i].role, path, w);
      }
      if first.error.None? {
        NodeKeeps(env, jobs[i], path, w);
        if jobs[i].SetupRole? {
          RoleNode(env, jobs[i].role, path, w);
        }
        RolesQueuedOnClean(env, jobs, i + 1, parent, first.state, bound);
        NodeJustInTime(Plan(env), jobs[i], path, w);
        QueuedOnCleanConcat(env, first.log, RunFrom(Plan(env), jobs, i + 1, parent, first.state, bound).log, w, first.state);
      }
    }
  }

  lemma CheckKidsQueuedOnClean(env: Env, kids: seq<Job>, path: Path, w: World, bound: nat)
    requires Bounded(Plan(env)) && RanksBelow(Plan(env), kids, bound) && SetupsAndCommits(kids)
    requires GoodEnv(env) && GoodWorld(env, w) && |kids| > 0 && kids[0].CommitIfNeeded?
    ensures QueuedOnClean(RunList(Plan(env), kids, path, w, bound).log, w)
  {
    hide GoodWorld, RunFrom;
    RolesQueuedOnClean(env, kids, 0, path, w, bound);
    RegistrationsChangeNothing(Plan(env), path, |kids|, w);
    NoSetupsIsClean(Registrations(path, |kids|), w);
    QueuedOnCleanConcat(env, Registrations(path, |kids|), RunFrom(Plan(env), kids, 0, path, w, bound).log, w, w);
  }

  /** In "check for updates", whether or not it completes, each role's change is queued only
      after everything pending before it has been committed. */
  lemma EachInstallCommitsFirst(env: Env, path: Path, w: World)
    requires Bounded(Plan(env)) && GoodEnv(env) && GoodWorld(env, w)
    ensures QueuedOnClean(RunNode(Plan(env), CheckForUpdates, path, w).log, w)
  {
    hide GoodWorld, BuildCheck, RunList;
    var p := Plan(env);
    var r := RunNode(p, CheckForUpdates, path, w);
    assert p.build(CheckForUpdates, w) == Build(env, CheckForUpdates, w);
    CheckIsFacadeOrFails(env, w);
    if Build(env, CheckForUpdates, w).Facade? {
      var kids := CheckKids(env, w);
      CheckKidsQueuedOnClean(env, kids, path, w, p.rank(CheckForUpdates));
      assert r.log[1..][1..] == RunList(p, kids, path, w, p.rank(CheckForUpdates)).log;
      assert r.log[1..][0].Opened?;
    } else {
      NoSetupsIsClean(r.log, w);
    }
  }

  // ----- the whole run -----

  /** A node in front of nested ones, none of which queues a role's change. */
  lemma NodeInFront(log: seq<Event<Job, World>>, below: seq<Event<Job, World>>)
    requires |log| >= 2 && log[2..] == below && NoSetups(below) && (log[1].Built? ==> !log[1].node.SetupRole?)
    requires !log[0].Built?
    ensures NoSetups(log)
  {
    assert forall i :: 2 <= i < |log| ==> log[i] == below[i - 2];
  }

  lemma OneCommitHasNoSetups(env: Env, path: Path, w: World, bound: nat)
    requires Bounded(Plan(env)) && RanksBelow(Plan(env), [CommitIfNeeded], bound)
    ensures NoSetups(RunList(Plan(env), [CommitIfNeeded], path, w, bound).log)
  {
    hide NoSetups, RunNode;
    var p, kids := Plan(env), [CommitIfNeeded];
    var first := RunNode(p, CommitIfNeeded, Child(path, 0), w);
    CommitHasNoSetups(env, Child(path, 0), w);
    RegistrationsHaveNoSetups(path, 1);
    NoSetupsConcat(Registrations(path, 1), first.log);
    assert first.error.None? ==> RunFrom(p, kids, 1, path, first.state, bound).log == [];
    assert first.log + [] == first.log;
  }

  lemma NothingHasNoSetups(env: Env, path: Path, w: World, bound: nat)
    requires Bounded(Plan(env)) && RanksBelow(Plan(env), [], bound)
    ensures NoSetups(RunList(Plan(env), [], path, w, bound).log)
  {
  }

  /** Before "check for updates" no role's change is queued. */
  lemma SettingsJobsHaveNoSetups(env: Env, job: Job, path: Path, w: World)
    requires Bounded(Plan(env)) && !job.CheckForUpdates? && !job.SetupRole?
    ensures NoSetups(RunNode(Plan(env), job, path, w).log)
  {
    hide NoSetups, RunList, InstallFrom, BuildSettingsRecord, BuildAddSettings, BuildCommit;
    var p, o := Plan(env), Build(env, job, w);
    var r := RunNode(p, job, path, w);
    assert p.build(job, w) == o;
    if o.Txn? {
      assert RanksBelow(p, p.build(job, w).Kids(), p.rank(job));
      var below := RunList(p, o.children, path, o.next, p.rank(job));
      assert r.log[2..] == below.log;
      KidsOfSettingsJobs(env, job, w);
      if job.InstallSettings? {
        InstallKidsHaveNoSetups(env, SETTINGS, path, o.next, p.rank(job));
      } else if job.AddCurrentSettings? {
        OneCommitHasNoSetups(env, path, o.next, p.rank(job));
      } else {
        NothingHasNoSetups(env, path, o.next, p.rank(job));
      }
      NodeInFront(r.log, below.log);
    } else {
      KidsOfSettingsJobs(env, job, w);
      NothingBuiltYet(r.log);
    }
  }

  lemma NothingBuiltYet(log: seq<Event<Job, World>>)
    requires forall e :: e in log ==> !e.Built?
    ensures NoSetups(log)
  {
    assert forall i :: 0 <= i < |log| ==> log[i] in log;
  }

  lemma KidsOfSettingsJobs(env: Env, job: Job, w: World)
    requires !job.CheckForUpdates? && !job.SetupRole?
    ensures !Build(env, job, w).Facade?
    ensures Build(env, job, w).Txn? ==>
              Build(env, job, w).children == match job
                                             case InstallSettings(_) => [StoreRefScript(SETTINGS), CommitIfNeeded]
                                             case AddCurrentSettings => [CommitIfNeeded]
                                             case _ => []
  {
  }

  lemma {:induction false} TopQueuedOnClean(env: Env, jobs: seq<Job>, i: nat, w: World)
    requires Bounded(Plan(env)) && RanksBelow(Plan(env), jobs, 3) && i <= |jobs|
    requires GoodEnv(env) && GoodWorld(env, w)
    requires i < |jobs| ==> PlannedFor(jobs[i], w)
    requires forall j :: i <= j < |jobs| ==> !jobs[j].SetupRole?
    requires forall j :: i < j < |jobs| ==> !jobs[j].InstallSettings?
    ensures QueuedOnClean(RunFrom(Plan(env), jobs, i, [], w, 3).log, w)
    decreases |jobs| - i
  {
    hide GoodWorld, RunNode, Build;
    if i < |jobs| {
      var path := Child([], i);
      var first := RunNode(Plan(env), jobs[i], path, w);
      if jobs[i].CheckForUpdates? {
        EachInstallCommitsFirst(env, path, w);
      } else {
        SettingsJobsHaveNoSetups(env, jobs[i], path, w);
        NoSetupsIsClean(first.log, w);
      }
      if first.error.None? {
        NodeKeeps(env, jobs[i], path, w);
        TopQueuedOnClean(env, jobs, i + 1, first.state);
        NodeJustInTime(Plan(env), jobs[i], path, w);
        QueuedOnCleanConcat(env, first.log, RunFrom(Plan(env), jobs, i + 1, [], first.state, 3).log, w, first.state);
      }
    }
  }

  /** Main result: over a whole upgrade run, completed or not, each role's change is queued only when
      everything queued before it has been committed. */
  lemma UpgradeQueuesOnClean(env: Env, w: World)
    requires GoodEnv(env) && GoodWorld(env, w) && UpgradeRun(env, w).Ok?
    ensures QueuedOnClean(UpgradeRun(env, w).value.log, w)
  {
    hide GoodWorld, RunFrom, QueuedOnClean;
    PlanIsBounded(env);
    var jobs := TopJobs(env, w.st.charter).value;
    TopJobsShape(env, w.st.charter);
    TopJobsAreNoSetups(env, w.st.charter);
    TopQueuedOnClean(env, jobs, 0, w);
    RegistrationsChangeNothing(Plan(env), [], |jobs|, w);
    NoSetupsIsClean(Registrations([], |jobs|), w);
    QueuedOnCleanConcat(env, Registrations([], |jobs|), RunFrom(Plan(env), jobs, 0, [], w, 3).log, w, w);
  }

  lemma TopJobsAreNoSetups(env: Env, known: Charter)
    requires TopJobs(env, known).Ok?
    ensures forall j :: 0 <= j < |TopJobs(env, known).value| ==> !TopJobs(env, known).value[j].SetupRole?
  {
  }

  // ----- what is built -----

  /** The roles that are set up: those enabled whose delegate is a data policy, in their order. */
  function SetUp(roles: seq<RoleInfo>): seq<RoleInfo> {
    if roles == [] then []
    else (if roles[0].enabled && roles[0].isDataPolicy then [roles[0]] else []) + SetUp(roles[1..])
  }

  lemma {:induction false} RoleJobsAre(roles: seq<RoleInfo>, c: Charter)
    requires RoleJobs(roles, c).Ok?
    ensures var jobs, active := RoleJobs(roles, c).value, SetUp(roles);
            |jobs| == |active| && forall i :: 0 <= i < |active| ==> jobs[i] == SetupRole(active[i])
  {
    if roles != [] {
      RoleJobsAre(roles[1..], c);
    }
  }

  /** The name is free, or names a policy. */
  predicate NoImpostor(c: Charter, n: string) {
    Has(c.manifest, n) ==> HasPolicy(c.manifest, n)
  }

  lemma {:induction false} RoleJobsThrow(roles: seq<RoleInfo>, c: Charter)
    ensures RoleJobs(roles, c).Err? <==>
            exists i :: 0 <= i < |roles| && roles[i].enabled && roles[i].isDataPolicy && !NoImpostor(c, roles[i].typeName)
  {
    if roles != [] {
      RoleJobsThrow(roles[1..], c);
      if i :| 0 <= i < |roles| - 1 && roles[1..][i].enabled && roles[1..][i].isDataPolicy
              && !NoImpostor(c, roles[1..][i].typeName) {
        assert roles[i + 1] == roles[1..][i];
      }
      if i :| 1 <= i < |roles| && roles[i].enabled && roles[i].isDataPolicy && !NoImpostor(c, roles[i].typeName) {
        assert roles[1..][i - 1] == roles[i];
      }
    }
  }

  /** The upgrade is refused exactly when what the manifest has under the settings' name is no policy,
      and "check for updates" when that is so of a role to be set up. */
  lemma PlansThrowExactly(env: Env, w: World)
    ensures UpgradeRun(env, w).Err? <==>
            (exists i :: 0 <= i < |env.roles| && env.roles[i].typeName == "settings") && !NoImpostor(w.st.charter, "settings")
    ensures Build(env, CheckForUpdates, w).Throws? <==>
            env.autoSetup && exists i :: 0 <= i < |env.roles| && env.roles[i].enabled && env.roles[i].isDataPolicy
                                         && !NoImpostor(w.st.charter, env.roles[i].typeName)
    ensures Build(env, CheckForUpdates, w).Throws? || Build(env, CheckForUpdates, w).Facade?
  {
    RoleJobsThrow(env.roles, w.st.charter);
    CheckIsFacadeOrFails(env, w);
  }

  /** "Check for updates" plans one node for each role to be set up, in their order, between two
      commits, and none at all without automatic set-up. */
  lemma CheckPlans(env: Env, w: World)
    requires Build(env, CheckForUpdates, w).Facade?
    ensures var kids := Build(env, CheckForUpdates, w).children;
            var active := if env.autoSetup then SetUp(env.roles) else [];
            && |kids| == |active| + 2 && kids[0] == CommitIfNeeded && kids[|active| + 1] == CommitIfNeeded
            && forall i :: 0 <= i < |active| ==> kids[i + 1] == SetupRole(active[i])
  {
    if env.autoSetup {
      RoleJobsAre(env.roles, w.st.charter);
    }
  }

  /** A node that has a transaction and nothing nested. */
  lemma LeafBuilds(env: Env, job: Job, path: Path, w: World, next: World)
    requires Bounded(Plan(env)) && Build(env, job, w) == Txn(next, [])
    ensures var r := RunNode(Plan(env), job, path, w);
            BuiltNodes(r.log) == [job] && r.state == next && r.error.None?
  {
    var p := Plan(env);
    assert p.build(job, w) == Txn(next, []);
    var r := RunNode(p, job, path, w);
    var rest := RunList(p, [], path, next, p.rank(job));
    assert rest.log == [] + [] && r.log == [Building(path), Built(path, job, next, 0)];
    assert r.log[1..] == [Built(path, job, next, 0)] && r.log[1..][1..] == [];
    assert BuiltNodes(r.log[1..]) == [job] + BuiltNodes<Job, World>([]);
  }

  /** An install's node, when it has something pending to commit. */
  lemma InstallBuilds(env: Env, job: Job, name: string, path: Path, w: World, next: World)
    requires Bounded(Plan(env)) && GoodEnv(env) && GoodWorld(env, next) && next.st.charter.pendingChanges != []
    requires Build(env, job, w) == Txn(next, [StoreRefScript(name), CommitIfNeeded])
    ensures BuiltNodes(RunNode(Plan(env), job, path, w).log) == [job, StoreRefScript(name), CommitIfNeeded]
  {
    hide GoodWorld, Commit;
    var p, kids := Plan(env), [StoreRefScript(name), CommitIfNeeded];
    assert p.build(job, w) == Txn(next, kids);
    assert RanksBelow(p, p.build(job, w).Kids(), p.rank(job));
    LeafBuilds(env, StoreRefScript(name), Child(path, 0), next, next);
    CommitKeepsWorld(env, next);
    var done := next.(st := Apply(next.st, Commit(next.st.charter).value, None));
    LeafBuilds(env, CommitIfNeeded, Child(path, 1), next, done);
    hide RunNode, RunFrom, Registrations;
    var a, b := RunNode(p, kids[0], Child(path, 0), next), RunNode(p, kids[1], Child(path, 1), next);
    TwoInTurn(env, kids, path, next, p.rank(job));
    BuiltOfConcat(a.log, b.log);
    BuiltOfList(path, a.log + b.log, job, next);
    NodeLog(env, job, path, w, next, kids);
  }

  lemma TwoInTurn(env: Env, kids: seq<Job>, path: Path, w: World, bound: nat)
    requires Bounded(Plan(env)) && RanksBelow(Plan(env), kids, bound) && |kids| == 2
    requires var a := RunNode(Plan(env), kids[0], Child(path, 0), w);
             a.error.None? && RunNode(Plan(env), kids[1], Child(path, 1), a.state).error.None?
    ensures var a := RunNode(Plan(env), kids[0], Child(path, 0), w);
            var b := RunNode(Plan(env), kids[1], Child(path, 1), a.state);
            RunFrom(Plan(env), kids, 0, path, w, bound).log == a.log + b.log
  {
    hide RunNode;
    var p := Plan(env);
    var a := RunNode(p, kids[0], Child(path, 0), w);
    var b := RunNode(p, kids[1], Child(path, 1), a.state);
    assert RunFrom(p, kids, 2, path, b.state, bound).log == [];
    assert RunFrom(p, kids, 1, path, a.state, bound).log == b.log + [];
    assert b.log + [] == b.log;
  }

  lemma NodeLog(env: Env, job: Job, path: Path, w: World, next: World, kids: seq<Job>)
    requires Bounded(Plan(env)) && Build(env, job, w) == Txn(next, kids)
    requires RanksBelow(Plan(env), kids, Plan(env).rank(job))
    ensures RunNode(Plan(env), job, path, w).log
            == [Building(path), Built(path, job, next, |kids|)]
               + (Registrations(path, |kids|) + RunFrom(Plan(env), kids, 0, path, next, Plan(env).rank(job)).log)
  {
    assert Plan(env).build(job, w) == Txn(next, kids);
  }

  lemma BuiltOfList(path: Path, below: seq<Event<Job, World>>, job: Job, next: World)
    ensures BuiltNodes([Building(path), Built(path, job, next, 2)] + (Registrations(path, 2) + below))
            == [job] + BuiltNodes(below)
  {
    var first: seq<Event<Job, World>> := [Building(path), Built(path, job, next, 2)];
    var regs := Registrations<Job, World>(path, 2);
    BuiltOfConcat(first, regs + below);
    BuiltOfConcat(regs, below);
    BuiltOfRegistrations<Job, World>(path, 2);
    assert first[1..] == [Built(path, job, next, 2)] && first[1..][1..] == [];
    assert BuiltNodes(first[1..]) == [job] + BuiltNodes<Job, World>([]);
    assert [] + BuiltNodes(below) == BuiltNodes(below);
  }

  /** Main result: what a role's node builds: the install, its reference script and its commit; the
      transaction that stores a reference script gone missing, when the policy is up to date; or
      nothing. */
  lemma RoleNodeBuilds(env: Env, role: RoleInfo, path: Path, w: World)
    requires Bounded(Plan(env)) && GoodEnv(env) && GoodWorld(env, w) && GoodRole(role)
    ensures var installed := InstallFrom(env, w, w.st.charter, role.typeName, role.idPrefix);
            var r := RunNode(Plan(env), SetupRole(role), path, w);
            match installed
            case Ok(_) => BuiltNodes(r.log) == [SetupRole(role), StoreRefScript(role.typeName), CommitIfNeeded]
            case Err(e) =>
              if !(e.PolicyUpToDate? || e.AlreadyPending? || e.NothingToCommit?) then
                r.error == Some(e) && BuiltNodes(r.log) == []
              else r.error.None? && r.state == w
                   && BuiltNodes(r.log) == if env.refScriptMissing(role.typeName, w.st.charter) then [SetupRole(role)] else []
  {
    hide GoodWorld, InstallFrom;
    var p, job := Plan(env), SetupRole(role);
    assert p.build(job, w) == BuildRole(env, w, role);
    match InstallFrom(env, w, w.st.charter, role.typeName, role.idPrefix)
    case Ok(next) =>
      InstallKeeps(env, w, role.typeName, role.idPrefix);
      if next.st.charter.pendingChanges == [] { NothingForAny(role.typeName); }
      InstallBuilds(env, job, role.typeName, path, w, next);
    case Err(e) =>
      if MeansNotNeeded(e) && env.refScriptMissing(role.typeName, w.st.charter) {
        LeafBuilds(env, job, path, w, w);
      } else {
        var log := RunNode(p, job, path, w).log;
        assert log[1..] == [] || (|log| == 2 && log[1..][1..] == []);
        assert BuiltNodes(log[1..]) == [];
      }
  }

  /** The same for the settings policy, planned against the current charter. */
  lemma SettingsInstallBuilds(env: Env, path: Path, w: World)
    requires Bounded(Plan(env)) && GoodEnv(env) && GoodWorld(env, w)
    requires InstallFrom(env, w, w.st.charter, "settings", "set").Ok?
    ensures var job := InstallSettings(w.st.charter);
            BuiltNodes(RunNode(Plan(env), job, path, w).log) == [job, StoreRefScript("settings"), CommitIfNeeded]
  {
    hide GoodWorld, InstallFrom;
    InstallKeeps(env, w, SETTINGS, "set");
    var next := InstallFrom(env, w, w.st.charter, SETTINGS, "set").value;
    if next.st.charter.pendingChanges == [] { NothingForAny(SETTINGS); }
    InstallBuilds(env, InstallSettings(w.st.charter), SETTINGS, path, w, next);
  }
}
