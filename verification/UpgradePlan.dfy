/**
 * The Capo's upgrade plan as a tree of transactions on the scheduler: install the settings
 * policy and record if missing, then commit what an earlier run left pending, set up each
 * enabled role, and commit again.
 */
module UpgradePlan {
  import opened Wrappers
  import opened OrderedMap
  import opened CharterModel
  import opened CharterProtocol
  import opened Scheduler

  const CURRENT_SETTINGS := "currentSettings"
  const SETTINGS := "settings"

  datatype RoleInfo = RoleInfo(typeName: string, idPrefix: string, enabled: bool, isDataPolicy: bool)

  /** What the plan is given: the delegate map, and what script bundles and the chain report. */
  datatype Env = Env(
    h: SeedHash,
    roles: seq<RoleInfo>,
    autoSetup: bool,
    config: string,
    scripts: (string, Charter) -> ScriptView,
    refScriptMissing: (string, Charter) -> bool,
    settingsPrefix: string,
    hasInitialSettings: bool)

  /** The chain as the builders see it, the wallet's seed utxos, and the settings record. */
  datatype World = World(st: State, wallet: seq<TxOutputId>, settingsRecord: Option<string>)

  datatype Job =
    | InstallSettings(known: Charter)
    | CommitIfNeeded
    | CreateSettingsRecord
    | AddCurrentSettings
    | CheckForUpdates
    | SetupRole(role: RoleInfo)
    | StoreRefScript(name: string)

  function Rank(job: Job): nat {
    match job
    case CheckForUpdates => 2
    case InstallSettings(_) => 1
    case SetupRole(_) => 1
    case AddCurrentSettings => 1
    case _ => 0
  }

  /** A builder's error either says that its transaction is not needed, or stops the run. */
  function Failed(e: Error): Outcome<Job, World, Error> {
    if MeansNotNeeded(e) then NotNeeded else Throws(e)
  }

  function OptionsFor(env: Env, typeName: string, idPrefix: string, base: Charter): QueueOptions {
    QueueOptions(typeName, idPrefix, "", env.config, env.scripts(typeName, base))
  }

  /** The queueing transaction of `mkTxnInstallPolicyDelegate`, on the charter it was given. */
  function InstallFrom(env: Env, w: World, base: Charter, typeName: string, idPrefix: string): Result<World, Error> {
    if w.wallet == [] then Err(NoSeed)
    else if w.wallet[0] in w.st.spent then Err(SeedAlreadySpent)
    else
      var e :- InstallPolicy(env.h, base, OptionsFor(env, typeName, idPrefix, base), w.wallet[0]);
      Ok(World(Apply(w.st, e, Some(w.wallet[0])), w.wallet[1..], w.settingsRecord))
  }

  /** `setupCapoPolicy`'s builder: install, or store a reference script that has gone missing. */
  function BuildRole(env: Env, w: World, role: RoleInfo): Outcome<Job, World, Error> {
    match InstallFrom(env, w, w.st.charter, role.typeName, role.idPrefix)
    case Ok(next) => Txn(next, [StoreRefScript(role.typeName), CommitIfNeeded])
    case Err(e) =>
      if MeansNotNeeded(e) && env.refScriptMissing(role.typeName, w.st.charter) then Txn(w, []) else Failed(e)
  }

  function BuildCommit(w: World): Outcome<Job, World, Error> {
    if w.st.charter.pendingChanges == [] then NotNeeded
    else
      match Commit(w.st.charter)
      case Ok(e) => Txn(w.(st := Apply(w.st, e, None)), [])
      case Err(e) => Failed(e)
  }

  /** The roles that get a node: enabled data policies, each named for what the manifest has. */
  function RoleJobs(roles: seq<RoleInfo>, c: Charter): Result<seq<Job>, Error> {
    if roles == [] then Ok([])
    else
      var rest :- RoleJobs(roles[1..], c);
      if !roles[0].isDataPolicy || !roles[0].enabled then Ok(rest)
      else
        var _ :- FindController(c.manifest, roles[0].typeName);
        Ok([SetupRole(roles[0])] + rest)
  }

  function BuildCheck(env: Env, w: World): Outcome<Job, World, Error> {
    match if env.autoSetup then RoleJobs(env.roles, w.st.charter) else Ok([])
    case Ok(jobs) => Facade([CommitIfNeeded] + jobs + [CommitIfNeeded])
    case Err(e) => Failed(e)
  }

  /** The settings policy, which must be installed by now. */
  function SettingsPolicy(c: Charter): Result<(), Error> {
    var found :- FindController(c.manifest, SETTINGS);
    if found.None? then Err(NoSettingsPolicy) else Ok(())
  }

  /** The settings record's builder (`mkTxnCreateRecord`): the record is named after a seed of its own. */
  function BuildSettingsRecord(env: Env, w: World): Outcome<Job, World, Error> {
    match SettingsPolicy(w.st.charter)
    case Err(e) => Failed(e)
    case Ok(_) =>
      if !env.hasInitialSettings then Throws(NoInitialSettings)
      else if w.wallet == [] then Throws(NoSeed)
      else if w.wallet[0] in w.st.spent then Throws(SeedAlreadySpent)
      else
        Txn(World(w.st.(spent := w.st.spent + {w.wallet[0]}), w.wallet[1..],
                  Some(UutNameOf(env.h, env.settingsPrefix, w.wallet[0]))),
            [])
  }

  function BuildAddSettings(env: Env, w: World): Outcome<Job, World, Error> {
    match SettingsPolicy(w.st.charter)
    case Err(e) => Failed(e)
    case Ok(_) =>
      if w.settingsRecord.None? then Throws(NoSettingsRecord)
      else
        match AddManifestEntry(w.st.charter, CURRENT_SETTINGS,
                               ManifestEntry(w.settingsRecord.value, None, NamedTokenRef))
        case Err(e) => Failed(e)
        case Ok(e) => Txn(w.(st := Apply(w.st, e, None)), [CommitIfNeeded])
  }

  function Build(env: Env, job: Job, w: World): Outcome<Job, World, Error> {
    match job
    case InstallSettings(known) =>
      (match InstallFrom(env, w, known, SETTINGS, "set")
       case Ok(next) => Txn(next, [StoreRefScript(SETTINGS), CommitIfNeeded])
       case Err(e) => Failed(e))
    case CommitIfNeeded => BuildCommit(w)
    case CreateSettingsRecord => BuildSettingsRecord(env, w)
    case AddCurrentSettings => BuildAddSettings(env, w)
    case CheckForUpdates => BuildCheck(env, w)
    case SetupRole(role) => BuildRole(env, w, role)
    case StoreRefScript(_) => Txn(w, [])
  }

  function Plan(env: Env): Planner<Job, World, Error> {
    Planner((job: Job, w: World) => Build(env, job, w), (job: Job) => Rank(job))
  }

  predicate HasSettingsRole(env: Env) {
    exists i :: 0 <= i < |env.roles| && env.roles[i].typeName == SETTINGS
  }

  /** The top-level nodes of `mkTxnUpgradeIfNeeded`, planned against the charter known then. */
  function TopJobs(env: Env, known: Charter): Result<seq<Job>, Error> {
    if !HasSettingsRole(env) then Ok([CheckForUpdates])
    else
      var found :- FindController(known.manifest, SETTINGS);
      Ok((if found.None? then [InstallSettings(known), CommitIfNeeded] else []) +
         (if !Has(known.manifest, CURRENT_SETTINGS) then [CreateSettingsRecord, AddCurrentSettings] else []) +
         [CheckForUpdates])
  }

  lemma RoleJobsAreSetups(roles: seq<RoleInfo>, c: Charter)
    requires RoleJobs(roles, c).Ok?
    ensures forall job :: job in RoleJobs(roles, c).value ==> job.SetupRole? && job.role in roles
  {
  }

  lemma PlanIsBounded(env: Env)
    ensures Bounded(Plan(env))
  {
    var p := Plan(env);
    forall job, w ensures RanksBelow(p, p.build(job, w).Kids(), p.rank(job)) {
      if job.CheckForUpdates? && env.autoSetup && RoleJobs(env.roles, w.st.charter).Ok? {
        RoleJobsAreSetups(env.roles, w.st.charter);
      }
    }
  }
}
