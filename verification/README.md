# Jenkins automation operator: a verified model

A Dafny model of the parts of the operator that carry state: the backup and restore protocol, the
calculation of a Jenkins spec and the pod built from it, the reconciliation of role bindings, the
build history of a JenkinsImage, the conditions of a Jenkins, the plugin and option parsers, and
the merging of Service labels. `dafny verify dfyconfig.toml` checks the whole project.

The API server is a store of versions: a read of an object whose status is written may return any
past version, a write commits only on the current one, and a write or a call may take effect
although the caller sees an error; the list that role bindings are deleted from may show any earlier
state. Outcomes of commands, lookups and writes are arbitrary inputs, so every theorem covers every
failure pattern. This is the optimistic locking of "Concurrency Control and Consistency" in the Kubernetes
API Conventions. File patterns follow section 2.13.3 of the POSIX.1-2017 Shell Command Language.

| file | content |
|---|---|
| `Text`, `Faults` | strings split and joined; faults of an API call |
| `Programs`, `Reconcilers` | a backup or restore run as a decision tree, and the two controllers proved against it |
| `Grammar`, `BackupOutcome`, `Claim` | what one run issues; what a finished backup means; any number of interleaved runs of one object |
| `FileTree`, `RoundTrip`, `Immutable` | what mkdir and cp do; backup then restore; many backups on shared volumes |
| `QuietDown` | many backups of one Jenkins |
| `ExecHandshake` | the two-channel handshake of the exec client |
| `ImageBuilds`, `JenkinsStatus` | interleaved writers of a JenkinsImage and of the conditions of a Jenkins |
| `Building` | what the rest of a reconcile comes to, and what the conditions say of it |
| `Rbac` | role bindings of several instances in one namespace |
| `Defaulting`, `Validation`, `Pods`, `Wiring` | spec to calculated spec to checked spec to pod |
| `Plugins`, `JenkinsOpts`, `ServiceMerge` | plugin conflicts, option parsing, Service labels through shared maps |

Code that works step by step is modelled by classes and methods with loops, each proved against a
function of its inputs or its old state; the theorems are about those functions and about state
machines over all interleavings.

Results in which the code does less than its names suggest, each with its exact condition:

- `BackupCompleted` is stored True exactly by backups that ran to their end with every status write
  accepted. Over all runs of a strategy that means "copied" exactly if it selects nothing to copy;
  `RestoreCompleted` is reliable.
- A backup leaves Jenkins quieted down exactly if its quiet-down succeeded and its cancel did not. A
  strategy rules that out exactly if it has no quiet-down: with one, a run that stores everything it
  should can do it, and an update of the Backup by somebody else while the script runs is enough. No
  other run of that Backup ever issues the cancel.
- A restore of `jobs` or `plugins` puts the content back exactly if the directory exists.
- A run writes `Available` True exactly if its reconcile returned no error, it reloaded, or it read it.
  A reconcile returns no error also for a spec that does not pass the check and for a base configuration
  that fails. Over all behaviors `Available` True means that some base configuration has gone through
  exactly if no write is refused and neither of these happens. With no request going wrong these are
  exactly the Jenkins whose spec does not pass, whose roles do not agree with the bindings that are
  there, or that have no pod or one that terminates (a reconcile that panics on Service labels reports
  nothing); a new Jenkins starts without a pod.
- A run that has found its Jenkins asks to be run again exactly if its last call of the API server
  failed: neither a base configuration that failed nor an error that was recorded as `Degraded` leads to
  another run. (A Jenkins that is not found is not asked for again either; that is not modelled.)
- A Deployment that exists is never changed: over any sequence of edits what runs is what the first one
  asked for. One that cannot be read makes the reconcile panic.
- Backups of one Jenkins share its quiet-down: a copy is made with Jenkins quieted down exactly if no
  other run has cancelled since the last quiet-down.
- Two instances keep out of each other's role bindings exactly if neither name followed by a dash
  starts with the other plus `-r-` or `-cr-`.
- A completed cleanup of role bindings is exact exactly if it saw every name that had to go, as it does
  on an up-to-date list. It completes exactly if no call goes wrong, every role agrees with what is
  bound under its name, and whatever an old list makes it delete is still there.
- The comparison that decides on updating the calculated spec never finds a difference.
- A user volume named `helper-scripts` passes the check for reserved names and is a duplicate, as
  soon as there are backup volumes.
- Reading `JENKINS_OPTS` panics exactly if it has a value and one of its space-separated parts has no `=`.
- A Service that is created selects on the user's labels too, unless they add nothing; the next
  completed pass mends it. Two instances share a Service exactly if one is named like the other followed
  by `-jnlp`, and then their selectors are never right at the same time.

## Model

| member | source | states |
|---|---|---|
| `Text.SplitJoin` | pkg/configuration/configuration.go:259-262 | Splitting by a character, as the code does, gives back the parts that were joined by it, if they do not contain it |
| `Reconcilers.Session.InitKubeGoClient` | pkg/exec/exec.go:42-66 | Opening the exec client takes the branch of the run's program that its outcome selects |
| `Reconcilers.Session.MakeRequest` | pkg/exec/exec.go:68-79 | One command is issued, and the run goes on with the branch its outcome selects |
| `Reconcilers.Session.UpdateStatus` | controllers/backup_controller.go:153-156 | One status write of the conditions held in memory; an error ends the run |
| `Reconcilers.BackupReconciler.PerformJenkinsQuietDown` | controllers/backup_controller.go:275-299 | The quiet-down script is issued and its outcome recorded; only a failed status write stops the run |
| `Reconcilers.BackupReconciler.PerformJenkinsBackup` | controllers/backup_controller.go:221-273 | mkdir, then unless it failed one cp per selected location, each failure recorded and skipped over |
| `Reconcilers.BackupReconciler.PerformJenkinsCancelQuietDown` | controllers/backup_controller.go:195-219 | The cancel script is issued and its outcome recorded; only a failed status write stops the run |
| `Reconcilers.BackupReconciler.Reconcile` | controllers/backup_controller.go:136-193 | A whole backup run does exactly what the backup program does on the same answers of the cluster |
| `Reconcilers.RestoreReconciler.PerformJenkinsRestore` | controllers/restore_controller.go:254-304 | One cp per selected location up to the first failure, which is recorded and ends the copying |
| `Reconcilers.RestoreReconciler.PerformJenkinsRestart` | controllers/restore_controller.go:210-230 | The restart script is issued; success is recorded in memory only, failure is written |
| `Reconcilers.RestoreReconciler.PerformJenkinsSafeRestart` | controllers/restore_controller.go:232-252 | The same for the safe restart |
| `Reconcilers.RestoreReconciler.Reconcile` | controllers/restore_controller.go:158-208 | A whole restore run does exactly what the restore program does on the same answers of the cluster |
| `Reconcilers.ReconcileReaches` | controllers/backup_controller.go:136-193 | Every completed run of either controller is a complete path of its program, for all outcomes of commands and writes |
| `Grammar.BackupGrammar` | controllers/backup_controller.go:158-193 | Under every pattern of failures the commands issued are a prefix of: quiet-down if enabled, mkdir, the selected copies in order unless mkdir failed, cancel-quiet-down if enabled; all of it if no status write failed |
| `BackupOutcome.LeftQuietIff` | controllers/backup_controller.go:195-209 | A run leaves Jenkins quieted down if and only if its quiet-down succeeded and its cancel did not; with all writes accepted, if and only if the cancel itself failed; never if the strategy has no quiet-down |
| `BackupOutcome.NeverLeftQuietIff` | controllers/backup_controller.go:158-181 | No finished run of a strategy leaves Jenkins quieted down if and only if the strategy has no quiet-down |
| `BackupOutcome.DoneAndLeftQuiet` | controllers/backup_controller.go:195-209 | With a quiet-down there is a run that makes every copy, has every write accepted, stores BackupCompleted True and leaves Jenkins quieted down |
| `BackupOutcome.CutOffQuiet` | controllers/backup_controller.go:294-297 | And one that ends on a refused status write right after the quiet-down, with no cancel issued |
| `BackupOutcome.BackupCompletedIff` | controllers/backup_controller.go:183-187 | A run stores BackupCompleted True if and only if it opened its client, ran to its end and had every write accepted, whatever its commands did |
| `BackupOutcome.DoneWithoutCopies` | controllers/backup_controller.go:225-236 | For every strategy there is a run that stores True although mkdir failed and nothing was copied |
| `BackupOutcome.TruthfulIffNothingSelected` | controllers/backup_controller.go:183-187 | True means that the selected copies were made, over all runs of a strategy, if and only if the strategy selects nothing |
| `BackupOutcome.CompleteBackup` | controllers/backup_controller.go:221-273 | If True was stored and no mkdir or cp failed, the directory and every selected copy were made, in order |
| `Grammar.RestoreCompletedIsHonest` | controllers/restore_controller.go:267-302 | Whenever a restore has written RestoreCompleted: True means at least one location and every selected copy made in order, False means the first failure was the last attempt |
| `Claim.ClaimComesFirst` | controllers/backup_controller.go:149-156 | No run issues a command before one of its status writes has succeeded, and no write stores an empty condition list |
| `Claim.AtMostOneRunIssuesCommands` | controllers/backup_controller.go:88-156 | In every interleaving of runs with stale reads, refused and lost writes, crashes and version bumps, at most one run issues any command |
| `Claim.NoOtherRunCancels` | controllers/backup_controller.go:149-181 | In every interleaving: if one run of an object has quieted Jenkins down, no other run of it issues any command, before or after |
| `Claim.QuietForGood` | controllers/backup_controller.go:158-181 | Once a run is over, finished or refused or crashed, and has left Jenkins quieted down, no run of that object ever cancels it |
| `Claim.BumpLeavesQuiet` | controllers/backup_controller.go:158-165 | For every strategy with a quiet-down a store can be reached where an update of the object by somebody else made the write after the script impossible, so that the run ended with Jenkins quieted down |
| `QuietDown.QuietUnlessCancelled` | controllers/backup_controller.go:158-181 | With any number of Backups of one Jenkins running at the same time, a run whose quiet-down succeeded issues a command with Jenkins quieted down if and only if no other run has cancelled since the last quiet-down |
| `QuietDown.OneCancelsForTheOther` | controllers/backup_controller.go:158-181 | Any two Backups with quiet-down, the one with something to copy, can run so that every command succeeds and the one copies while Jenkins is not quieted down |
| `Claim.ConditionsNeverVanish` | controllers/restore_controller.go:87-178 | The history of an object only grows, and conditions once stored never become empty again |
| `Claim.EveryBackupRunFollowsTheGrammar` | controllers/backup_controller.go:158-193 | In every interleaving each run of a Backup stays within the command grammar |
| `Claim.StoredRestoreIsHonest` | controllers/restore_controller.go:180-205 | Every stored version that has RestoreCompleted tells the truth about the one run that issued commands |
| `Claim.StoredBackupCompleted` | controllers/backup_controller.go:183-187 | A stored BackupCompleted True tells, in every interleaving, that the one run that issued commands got to its end with all earlier writes accepted |
| `Claim.DoneIsStored` | controllers/backup_controller.go:183-191 | A run that knows its last write was accepted leaves a stored version with BackupCompleted True |
| `Claim.EveryPathHappens` | controllers/backup_controller.go:136-193 | Every path of a run's program is reached by some behavior of the store |
| `Claim.StoredDoneWithoutCopies` | controllers/backup_controller.go:225-236 | A store can be reached that holds BackupCompleted True while mkdir failed and nothing was copied |
| `FileTree.CopyKeepsTrees` | controllers/backup_controller.go:253-254 | What a successful cp -r into a directory leaves behind is again a file tree |
| `FileTree.CopyAsKeepsTrees` | controllers/restore_controller.go:276-280 | So is what a cp -r to a name that is no directory leaves behind |
| `FileTree.StarMatches` | controllers/backup_controller.go:241 | A star expands to the visible names with the given ending, and to nothing hidden |
| `FileTree.DirComponents` | controllers/backup_controller.go:222 | The backup paths resolve to the volume's directory for that backup and what lies below it |
| `RoundTrip.BackedUpIs` | controllers/backup_controller.go:221-273 | What a run with True stored and no failed mkdir or cp leaves in its directory is exactly what its copies took |
| `RoundTrip.RestoredSteps` | controllers/restore_controller.go:254-304 | A stored RestoreCompleted True means that the run's copies were all made, in order, one per selected location |
| `RoundTrip.RestoreHolds` | controllers/restore_controller.go:268-293 | After n successful restore copies the tree is the tree before with the first n locations' visible paths laid over the home directory |
| `RoundTrip.RestoreLaysTheBackup` | controllers/restore_controller.go:254-304 | A backup run and a restore run: the restored tree is the tree found with the captured visible paths laid over the home directory, whatever Jenkins did to its home between the copies |
| `RoundTrip.BackupThenRestore` | controllers/restore_controller.go:254-304 | The round trip of two runs, path by path: every path that was taken and is visible has its backup-time content, every other path is as the restore found it |
| `RoundTrip.BackedUpHappens` | controllers/backup_controller.go:221-273 | Such backups exist, with and without quiet-down: here of a home with one configuration file |
| `RoundTrip.RoundTripHappens` | controllers/restore_controller.go:254-304 | And such round trips: a configuration file is backed up, lost from the home directory and back after the restore |
| `RoundTrip.CapturedIs` | controllers/backup_controller.go:250-254 | With a home directory at rest, a path is captured exactly if a selected word matches it, with the content it had |
| `RoundTrip.RestoreNeedsItsDirectory` | controllers/restore_controller.go:276-280 | A successful restore of jobs or plugins puts everything back if and only if the directory was there before |
| `RoundTrip.MissingDirectoryHappens` | controllers/restore_controller.go:276-280 | And it can be missing: with one file in the backup cp succeeds and puts the file in the directory's place |
| `RoundTrip.RestoreNeedsEntries` | controllers/restore_controller.go:276-280 | A restore copy can only succeed if the backup holds something visible for its location |
| `Immutable.CopyComesAfterMkdir` | controllers/backup_controller.go:224-236 | In every history of runs on shared volumes a run copies only after its own mkdir succeeded |
| `Immutable.ExistingBackupsAreImmutable` | controllers/backup_controller.go:222-271 | A backup directory that exists keeps its content through every later step of every run that has not made it |
| `Immutable.OneWriterPerBackup` | controllers/backup_controller.go:222-271 | Only the run that made a backup directory ever writes into it |
| `ExecHandshake.EachRequestGetsItsOwnError` | pkg/exec/exec.go:109-142 | Over any schedule and any sequence of requests each request returns the error of its own stream |
| `ExecHandshake.NothingLeftBetweenRequests` | pkg/exec/exec.go:125-133 | Between requests both channels are empty and every worker has ended |
| `ExecHandshake.NeverDeadlocks` | pkg/exec/exec.go:45-46 | With buffered channels some step is always possible and a send never waits |
| `ExecHandshake.EachStepIsProgress` | pkg/exec/exec.go:109-142 | Every step of a request decreases its distance to the end, where its result is added |
| `ExecHandshake.UnbufferedDeadlocks` | pkg/exec/exec.go:45-46 | With unbuffered channels no request that starts a stream ever returns |
| `ImageBuilds.Contains` | controllers/jenkinsimage_controller.go:175-182 | Found exactly if the build is in the list |
| `ImageBuilds.JenkinsImage.UpdateStatusWhenPodIsCompleted` | controllers/jenkinsimage_controller.go:131-161 | The build of a single terminated container is appended and the phase becomes Successful; a known build, a failed wait or any other pod changes and writes nothing |
| `ImageBuilds.HistoryOnlyGrows` | controllers/jenkinsimage_controller.go:126-155 | In every interleaving of writers with stale snapshots each stored history is free of duplicates and a prefix of every later one |
| `ImageBuilds.ConsumerIsInRange` | controllers/jenkins_controller.go:489-493 | In every stored version phase Successful implies a last build, so the index of the consumer is in range |
| `ImageBuilds.OneWriterPerVersion` | controllers/jenkinsimage_controller.go:145-149 | Over a whole history at most one of the goroutines started from one version gets its build in |
| `JenkinsStatus.Jenkins.FindStatusCondition` | vendor/github.com/openshift/custom-resource-status/conditions/v1/conditions.go:55-63 | The first entry of a kind, or the length of the list if there is none |
| `JenkinsStatus.Jenkins.SetStatusCondition` | vendor/github.com/openshift/custom-resource-status/conditions/v1/conditions.go:11-33 | The first entry of that kind is overwritten where it stands, otherwise the condition is appended |
| `JenkinsStatus.Jenkins.SetInitialConditions` | controllers/jenkins_controller.go:697-728 | The five conditions of a start are set one after the other |
| `JenkinsStatus.Jenkins.SetStatusConditions` | controllers/jenkins_controller.go:238-269 | The five conditions of a completed reconcile are set one after the other |
| `JenkinsStatus.Jenkins.SetReconcileFailedStatus` | controllers/jenkins_controller.go:208-216 | Degraded becomes True, nothing else is set |
| `JenkinsStatus.UpdateJenkinsStatus` | controllers/jenkins_controller.go:218-236 | One write, and if it is refused a reload, the completed conditions and a second write; an error of either ends the run |
| `JenkinsStatus.Reconcile` | controllers/jenkins_controller.go:117-206 | A whole reconcile run is a complete path of the phases, on every pattern of API answers and outcomes, and asks to be run again as that path says; only a panic of the inner reconcile ends it before |
| `JenkinsStatus.PutAllIs` | controllers/jenkins_controller.go:238-269 | Setting a list of different kinds on nothing, or on a list of the same kinds, leaves exactly that list |
| `JenkinsStatus.StoredConditions` | controllers/jenkins_controller.go:145-160 | In every interleaving each stored list is empty, or has the five types once each and is the started or the completed list with Degraded possibly raised |
| `JenkinsStatus.NeverLeavesTrue` | controllers/jenkins_controller.go:199-205 | Available and ReconciliationComplete become True together and never leave True |
| `JenkinsStatus.AvailableIff` | controllers/jenkins_controller.go:143-205 | What a run writes has Available True if and only if its reconcile returned no error, it reloaded, or it started from a version that had it |
| `JenkinsStatus.AvailableMeansBuiltIff` | controllers/jenkins_controller.go:346-371 | Over all behaviors, a stored Available True implies that some base configuration has gone through if and only if no write is refused and no reconcile ends with a rejected spec, a failed base configuration or a terminating pod |
| `JenkinsStatus.CompletesWith` | controllers/jenkins_controller.go:199-205 | Whatever outcome is no error: a first run with every write accepted and nothing reloaded stores Available True and does not ask to be run again |
| `JenkinsStatus.TakenForBuilt` | controllers/jenkins_controller.go:358-371 | With any outcome that is no error a run goes on and ends as if everything had been built; the delays asked for at 367 and 370 are lost |
| `JenkinsStatus.AgainIff` | controllers/jenkins_controller.go:154-205 | A run asks to be run again if and only if its last call of the API server failed; what the reconcile came to plays no part, because its error gives way to that of the status write |
| `JenkinsStatus.DegradedIff` | controllers/jenkins_controller.go:208-216 | What a run writes has Degraded True if and only if its reconcile has just returned an error |
| `JenkinsStatus.AvailableUnreconciled` | controllers/jenkins_controller.go:218-236 | A store can be reached that holds Available True while no run has ever reconciled |
| `Building.EnsureClaim` | controllers/jenkins_controller.go:312-337 | A claim that cannot be read is passed over and left as it was; one that is missing has to be created, and the step succeeds exactly if that works; with no request going wrong there is one afterwards |
| `Building.Prepare` | controllers/jenkins_controller.go:271-360 | With no request going wrong it ends in an error exactly if the spec cannot be calculated or a lookup of the check fails, and goes on exactly if the spec passes the check; a rejected spec is one that does not pass, whatever goes wrong |
| `Building.EnsureResources` | pkg/configuration/base/reconcile.go:90-154 | It gets through only if no request goes wrong, the roles agree with the bindings and the labels can be written; it panics only if no request goes wrong and they cannot |
| `Building.EnsureJenkinsDeploymentIsPresent` | pkg/configuration/base/deployment.go:33-76 | A Deployment that is there is left as it is; it is there afterwards if no request goes wrong, and only then does the step succeed |
| `Building.EnsureJenkinsDeploymentIsReady` | pkg/configuration/base/deployment.go:17-31 | It succeeds exactly if the Deployment can be read, with or without available replicas, and panics otherwise |
| `Building.GetPodByDeployment` | pkg/configuration/configuration.go:206-224 | A pod is found exactly if one is attached and no request goes wrong |
| `Building.EnsureBase` | pkg/configuration/base/reconcile.go:45-88 | The base configuration goes through only if no request went wrong, roles and labels could be applied and an attached pod is not terminating, and comes to exactly that on up-to-date answers; any request that goes wrong makes it fail or panic |
| `Building.Reconcile` | controllers/jenkins_controller.go:271-390 | With no request going wrong and up-to-date answers the outcome is the one that spec, lookups, bindings, Services and pod determine; whatever goes wrong, what was built was asked for by a spec that passed the check, a spec that does not pass changes nothing, and an existing Deployment is untouched |
| `Building.AcceptableIsWired` | pkg/configuration/base/deployment.go:40-48 | In the Deployment that a reconcile makes every mount names a volume |
| `Building.OnlyClaimedIff` | controllers/jenkins_controller.go:346-371 | With no request going wrong a reconcile reports success without its base configuration having gone through if and only if the lookups succeed and the spec does not pass the check, the roles do not agree with the bindings, or no pod is attached that is not terminating |
| `Building.ClaimsAvailable` | controllers/jenkins_controller.go:199-205 | Each such reconcile stores Available True with every write accepted, and no base configuration has gone through |
| `Building.ReservedVolumeIsClaimed` | controllers/jenkins_controller.go:351-358 | A user volume with a name of the operator's own is rejected, and so ends like a success |
| `Building.RejectedHappens` | controllers/jenkins_controller.go:351-358 | There is such a spec, for every name and surroundings |
| `Building.NoPodIsClaimed` | controllers/jenkins_controller.go:363-371 | So does a reconcile of a spec that passes the check, if its labels can be written and its Deployment has no pod yet |
| `Building.EditsNeverArrive` | pkg/configuration/base/deployment.go:33-76 | Over any sequence of reconciles a Deployment that is there stays what it is |
| `Building.FirstRevisionRuns` | pkg/configuration/base/deployment.go:33-76 | Over any sequence of edits and reconciles that starts without a Deployment, what runs is what the revision in force at its making asked for, and a later revision has what it asks for if and only if it asks for the same |
| `Rbac.ExtraIsManaged` | pkg/configuration/base/resources/meta.go:23-32 | The name of every extra binding lies under one of the two prefixes of its instance, the base name under neither |
| `Rbac.CreateOrUpdate` | pkg/configuration/configuration.go:99-116 | It succeeds exactly if no call goes wrong and a binding that is there has the same role; the binding is then as wanted, otherwise as wanted or untouched |
| `Rbac.CreateRBAC` | pkg/configuration/base/rbac.go:27-53 | Service account and role come first and may end the step; only the base binding changes, and the step succeeds exactly if no call goes wrong and the role of that binding is the one wanted |
| `Rbac.IsWanted` | pkg/configuration/base/rbac.go:77-85 | Found exactly if one of the roles is bound under this name |
| `Rbac.UpsertRoleBindings` | pkg/configuration/base/rbac.go:59-65 | It succeeds exactly if no call goes wrong and every role agrees with what is bound under its name and with earlier roles of that name; then every wanted binding is there; wherever the loop stops, only wanted bindings have changed |
| `Rbac.DeleteUnwanted` | pkg/configuration/base/rbac.go:71-92 | Exactly the listed names under the prefixes that no role wants are deleted, or a prefix of them if a call fails; it succeeds exactly if no call goes wrong and each of them is still there |
| `Rbac.EnsureExtraRBACArePresent` | pkg/configuration/base/rbac.go:55-94 | What was listed is a state of the cluster, past or present; the run completes exactly if no call goes wrong, the roles agree and what is to go is still there; completed, it leaves the wanted bindings and of the unwanted ones those it did not see. With up-to-date answers it completes exactly if no call goes wrong and the roles agree, and leaves exactly the wanted names |
| `Rbac.EnsureRBAC` | pkg/configuration/base/reconcile.go:113-121 | Both steps together: bindings that are not the instance's own are never touched; when a pass completes, and that with up-to-date answers a completed pass leaves exactly the base binding and the wanted ones |
| `Rbac.CompletedRunIsExact` | pkg/configuration/base/rbac.go:59-92 | For every state listed: each wanted name remains, of the others under the prefixes exactly those not seen; every other binding, the base binding included, is as before |
| `Rbac.ExactIffListed` | pkg/configuration/base/rbac.go:66-92 | A completed run is exact if and only if it saw every name that had to go |
| `Rbac.FreshListCovers` | pkg/configuration/base/rbac.go:66-70 | A run that lists the present state sees every such name, and nothing that is no longer there |
| `Rbac.RetriesConverge` | pkg/configuration/base/rbac.go:55-94 | After any number of passes, cut off or on old lists and with any roles, a completed pass ends where it alone would have, if and only if it saw every name that had to go; a completed pass with up-to-date answers always does |
| `Rbac.PassingAgainChangesNothing` | pkg/configuration/base/rbac.go:55-94 | The state that a pass aims at is its own result, and the roles still agree there if they did before |
| `Rbac.SharedNamesIffClash` | pkg/configuration/base/resources/meta.go:23-32 | Two instances can share a binding name if and only if one name followed by a dash starts with the other plus -r- or -cr- |
| `Rbac.PassSparesOthers` | pkg/configuration/base/rbac.go:71-92 | A pass, cut off or complete, never creates, changes or deletes a binding of an instance whose name does not clash |
| `Rbac.LostIffManaged` | pkg/configuration/base/rbac.go:71-92 | Completed passes of an instance delete a name they saw and do not want if and only if it is under the instance's prefixes |
| `Rbac.ShadowLosesAll` | pkg/configuration/base/rbac.go:71-92 | An instance whose name with a dash starts with another's prefix loses the bindings of all its roles to it |
| `Rbac.BaseLostIff` | pkg/configuration/base/rbac.go:71-92 | It loses its base binding too if and only if already its name starts with such a prefix |
| `Rbac.ShadowedLosesSome` | pkg/configuration/base/rbac.go:71-92 | The other way round the bindings of roles with certain names are lost |
| `Rbac.ClashLosesBindings` | pkg/configuration/base/rbac.go:71-92 | If names clash, passes of the one delete the binding of a named role of the other |
| `Rbac.InstancesCoexist` | pkg/configuration/base/rbac.go:27-94 | Over any sequence of passes of non-clashing instances, what an instance's last pass completed is what it still has, and of its unwanted bindings exactly those that pass did not see |
| `Defaulting.IsEnvVarNotSet` | controllers/jenkins_controller.go:633-640 | True exactly if no variable has the name |
| `Defaulting.SetEnvVarIfNotSet` | controllers/jenkins_controller.go:588-596 | The variable is appended unless one of that name is there |
| `Defaulting.SetDefaultsForContainer` | controllers/jenkins_controller.go:642-664 | Pull policy and resources of that one container of Status.Spec are filled in, through the shared object |
| `Defaulting.DefaultSideContainers` | controllers/jenkins_controller.go:550-554 | Every container but the first is defaulted in place, the rest of the spec is untouched, and no index is out of range |
| `Defaulting.GetCalculatedSpec` | controllers/jenkins_controller.go:454-586 | The result is the object Status.Spec points to and holds the calculated spec; on each error path Status.Spec holds what had been built by then |
| `Defaulting.SetDefaults` | controllers/jenkins_controller.go:436-452 | On success the comparison always finds equality, so no update follows |
| `Defaulting.KeepsWhatWasGiven` | controllers/jenkins_controller.go:519-583 | Volumes, services, roles, plugins, backup volumes and configuration as code that were given are kept, and configuration as code is never absent |
| `Defaulting.KeepsContainers` | controllers/jenkins_controller.go:498-563 | Containers keep count and order, the user's variables are a prefix, each default variable is added at most once, the first is named jenkins with pull policy Always, the others change only where they were empty |
| `Defaulting.CalculatingAgainChangesNothing` | controllers/jenkins_controller.go:454-586 | Defaulting is idempotent for a fixed environment |
| `Pods.GetJenkinsMasterPodBaseVolumes` | pkg/configuration/base/resources/pod.go:153-199 | The operator's volumes: the fixed ones, one claim per backup volume, then those of configuration as code if enabled |
| `Pods.GetJenkinsVolumes` | pkg/configuration/base/resources/deployment.go:47-72 | Base volumes, user volumes, then one pool per backup volume and the helper scripts if there are any |
| `Pods.GetJenkinsHomePath` | pkg/configuration/base/resources/pod.go:142-151 | The first JENKINS_HOME of the master, or the default |
| `Pods.DropEmptyProxyEnv` | pkg/configuration/base/resources/proxy.go:114-125 | The variables with a value, in order |
| `Pods.NewJenkinsMasterContainer` | pkg/configuration/base/resources/pod.go:221-289 | The master container, and the rewriting of the shared proxy variables exactly when they are used |
| `Pods.NewJenkinsBackupContainer` | pkg/configuration/base/resources/pod.go:358-384 | Helper scripts, home and one pool per backup volume of the user's spec are mounted |
| `Pods.NewJenkinsConfigInitContainer` | pkg/configuration/base/resources/pod.go:406-441 | The target, the default and one volume per configuration are mounted, also if configuration as code is absent |
| `Pods.NewJenkinsBackupInitContainer` | pkg/configuration/base/resources/pod.go:443-496 | Helper scripts and one pool per backup volume of the calculated spec are mounted |
| `Wiring.ContainersAt` | pkg/configuration/base/resources/pod.go:519-534 | Number and place of every container next to the master: the sidecars exactly when asked for, each side container of the calculated spec unchanged |
| `Wiring.UserContainersReachThePod` | pkg/configuration/base/resources/deployment.go:33-35 | From the user's spec to the pod every side container arrives, in order and as given but for defaults |
| `Validation.ValidateReservedVolumes` | pkg/configuration/base/validate.go:359-372 | A message for a name exactly if a base volume and a user volume have it |
| `Validation.ValidateVolumes` | pkg/configuration/base/validate.go:282-357 | No verdict exactly if a lookup fails; a message exactly for each volume whose source is not found and not optional |
| `Validation.ValidateContainerVolumeMounts` | pkg/configuration/base/validate.go:395-417 | Silent exactly if every mount has a path and names a base or user volume; a missing volume is reported exactly where there is one |
| `Validation.ValidateContainer` | pkg/configuration/base/validate.go:374-393 | Silent exactly if image, pull policy and all mounts are in order |
| `Validation.ValidateJenkinsMasterPodEnvs` | pkg/configuration/base/validate.go:419-458 | A message exactly for each required flag that the last JAVA_OPTS lacks |
| `Validation.ValidateConfiguration` | pkg/configuration/base/validate.go:563-617 | A verdict exactly if everything referred to can be read or created, silent exactly if no name is missing |
| `Validation.Validate` | pkg/configuration/base/validate.go:172-210 | A verdict exactly if no lookup fails, and no message exactly if the instance is valid in every respect |
| `Wiring.AcceptedInstancesAreWired` | pkg/configuration/base/resources/pod.go:154-545 | If the containers pass the check, configuration as code is present and both specs agree on backup volumes, every mount of every container and init container names a volume of the pod |
| `Wiring.ValidSpecsBuildWiredPods` | controllers/jenkins_controller.go:565-573 | The same from end to end: for every spec that is calculated and on which the check has no message |
| `Wiring.OpenCascDangles` | pkg/configuration/base/resources/pod.go:536-540 | Without configuration as code an init container would mount a volume that nobody declares |
| `Wiring.StaleBackupVolumeDangles` | pkg/configuration/base/resources/deployment.go:50-61 | A backup volume that only the calculated spec knows is mounted but not declared |
| `Wiring.VolumeNamesDistinctIff` | pkg/configuration/base/resources/deployment.go:47-82 | The volume names of a pod are pairwise distinct if and only if the names the user gave keep clear of one another and of the operator's |
| `Wiring.PlainNamesAreDistinct` | pkg/configuration/base/resources/pod.go:154-199 | No repeats and none of the fixed names, the prefix casc- and the suffix -backup-pool are enough for distinct names |
| `Wiring.HelperScriptsSlipThrough` | pkg/configuration/base/validate.go:359-372 | The check for reserved names misses helper-scripts, which is a duplicate as soon as there are backup volumes |
| `Wiring.CalculatedFlags` | pkg/configuration/base/validate.go:438-455 | The master of a calculated spec has the required flags unless the user set JAVA_OPTS without them |
| `Wiring.HomeIsWhereItIsMounted` | pkg/configuration/base/resources/pod.go:225-244 | The home volume is mounted where the master's variable says if and only if the user gives it at most one value; by default that is where backups look |
| `Plugins.NewOfString` | pkg/plugins/plugin.go:19-49 | Parsing a printed plugin gives back name and version if and only if both are valid |
| `Plugins.StringOfNew` | pkg/plugins/plugin.go:33-49 | Whatever is accepted prints back to the text it was parsed from |
| `Plugins.Collect` | pkg/plugins/plugin.go:93-110 | The table holds every root and dependency under its name, as often as it occurs, whatever the order of iteration |
| `Plugins.Compare` | pkg/plugins/plugin.go:117-129 | One message per ordered pair of entries with different versions |
| `Plugins.VerifyDependencies` | pkg/plugins/plugin.go:89-133 | The messages are, as a multiset, exactly the ordered pairs of entries of one name and different versions |
| `Plugins.SilentIffOneVersionEach` | pkg/plugins/plugin.go:112-130 | Nothing is reported if and only if each plugin name has one version over all roots and dependencies |
| `Plugins.ReportsAreSymmetric` | pkg/plugins/plugin.go:117-129 | Each disagreement is reported from both sides, equally often |
| `Plugins.OrderDoesNotMatter` | pkg/plugins/plugin.go:95-112 | Any two orders of iteration give the same multiset of messages |
| `Plugins.VerifyBasePlugins` | pkg/configuration/base/validate.go:486-504 | One message per required plugin that is not listed, in order |
| `Plugins.ValidatePlugins` | pkg/configuration/base/validate.go:460-484 | Rejected entries, conflicts and missing plugins in this order, and nothing exactly for coherent lists |
| `Plugins.SilentIffCoherent` | pkg/configuration/base/validate.go:460-504 | No message if and only if all entries are valid, no name has two versions and every required name is listed |
| `JenkinsOpts.GetJenkinsOpts` | pkg/configuration/configuration.go:246-269 | The options of the first JENKINS_OPTS; nothing if it is absent or empty |
| `JenkinsOpts.ParseValue` | pkg/configuration/configuration.go:255-266 | Items are read from left to right; an item without = is an index out of range |
| `JenkinsOpts.PanicsIff` | pkg/configuration/configuration.go:259-264 | Reading panics if and only if there is a value and one of its space-separated parts lacks a = |
| `JenkinsOpts.DoubleSpacePanics` | pkg/configuration/configuration.go:259-264 | Two spaces in a row are enough to panic |
| `JenkinsOpts.ReadBack` | pkg/configuration/configuration.go:259-264 | Space-joined --k=v items are read back in order, for keys free of space and = and values free of space |
| `JenkinsOpts.ReadsTheLastValue` | pkg/configuration/configuration.go:263 | For keys without -- and values without = exactly the printed keys are read, each with its last value |
| `JenkinsOpts.ReadsBackIff` | pkg/configuration/configuration.go:263 | One setting is read back as printed if and only if its key has no -- and its value no = |
| `ServiceMerge.UpdateService` | pkg/configuration/base/resources/service.go:15-33 | User labels are written into the map the labels refer to, whoever shares it; a nil map with user labels panics |
| `ServiceMerge.CreateService` | pkg/configuration/base/service.go:15-39 | However the call ends, the Service is as it was or as it is meant to be and no other is touched; it completes exactly if no request goes wrong and the labels can be written, panics exactly if none goes wrong and they cannot, and then changes nothing |
| `ServiceMerge.EnsureServices` | pkg/configuration/base/reconcile.go:91-132 | A pass over both Services with one metadata object leaves nothing done, the first done or both done; it completes exactly if no request goes wrong and the labels of both can be written, and panics exactly if none goes wrong and they cannot |
| `ServiceMerge.HttpSelectorIff` | pkg/configuration/base/service.go:18-27 | The HTTP selector is right if and only if the Service existed or its user labels add nothing |
| `ServiceMerge.JnlpSelectorIff` | pkg/configuration/base/reconcile.go:123-132 | When the JNLP selector is right, given what the creation of the other Service left in the shared labels |
| `ServiceMerge.SharedServicesIffClash` | pkg/configuration/base/resources/service.go:36-43 | Two instances share a Service if and only if one is named like the other followed by -jnlp |
| `ServiceMerge.PassSparesOthers` | pkg/configuration/base/service.go:15-39 | A pass, however it ends, leaves the Services of an instance whose name does not clash as they were |
| `ServiceMerge.BothRightIff` | pkg/configuration/base/service.go:36-38 | The selectors of two instances can be right at the same time if and only if their names do not clash |
| `ServiceMerge.ClashBreaks` | pkg/configuration/base/service.go:36-38 | If they clash, each pass that completes for the one over existing Services leaves a selector of the other wrong |
| `ServiceMerge.PassKeepsSelectors` | pkg/configuration/base/service.go:36-38 | A pass over existing Services gives both the right selector if it completes, and keeps right selectors right if it does not |
| `ServiceMerge.SelectorsAreMended` | pkg/configuration/base/service.go:36-38 | Over any history of passes of this and of non-clashing instances and of edits: once both Services exist, every completed pass leaves both selectors right, and they stay right until the next edit |
| `ServiceMerge.NoPassPanics` | pkg/configuration/base/resources/service.go:17-19 | No pass of an instance panics, in such a history, if none of its Services starts without labels and no edit takes the last one away |
| `ServiceMerge.TwoPassesAreEnough` | pkg/configuration/base/service.go:15-39 | From any start two completed passes are enough, with cut-off passes and edits in between |

## Left out

- Transport, logging, scheme registration, `main.go`, probes for available APIs and watches: no state of interest.
- Notifications and events: sends are steps that return. (The completion notification of a JenkinsImage calls a method on the error it is given, also when that is nil.)
- Deletion of an object between two steps of a run, and its re-creation under the same name.
- Reasons, messages and timestamps of conditions; a Backup's or Restore's conditions are a map from type to value, as setting them keeps one entry per type.
- `ExecHandshake`: the client is a record of its channels and its workers stepped by a state machine, not a class, because caller and goroutine run concurrently; output buffers are left out.
- Symbolic links, permissions, ownership, times and concurrent writers within one `cp`; a failed command may have done any part of its work inside its target.
- The scripts for quiet-down and restart: any effect inside the home directory.
- A user-defined JENKINS_HOME in the backup commands: they always use the default one, as the code does; `Wiring.HomeIsWhereItIsMounted` says when that is the mounted one.
- The delays after which a failed base configuration asks to be run again: the controller drops them.
- The retry counter of the Jenkins controller: it cannot be reached, because the error it tests is always nil there.
- Persistent volume claims, routes, service monitors, secrets, config maps and their templates, service account and role objects.
- Rbac.CreateOrUpdate: owner references are not modelled.
- Rbac.CreateRBAC: the service account and the role are calls that may fail, without content.
- BackupOutcome.LeftQuietIff: a script that fails is taken to have had no effect on quiet-down; what counts are the scripts of the run itself, `QuietDown` is about several runs of one Jenkins.
- Reconcilers.Session.InitKubeGoClient: finding the cluster's configuration is one outcome; the channels are in `ExecHandshake`.
- Reconcilers.Session.MakeRequest: building the request and streaming it are one outcome; the handshake is in `ExecHandshake`.
- ImageBuilds.JenkinsImage.UpdateStatusWhenPodIsCompleted: the checksum of the Dockerfile and the trimming of the message are parameters.
- JenkinsStatus.Reconcile: the inner reconcile is an arbitrary outcome here, derived in `Building`; a Jenkins that is not found at the start ends the run without a trace and is not modelled.
- JenkinsStatus.AgainIff: a Jenkins that is not found at the start is a failed call that does not lead to another run; that call is not modelled.
- QuietDown.QuietUnlessCancelled: a script that fails is taken to have had no effect on quiet-down.
- JenkinsStatus.AvailableMeansBuiltIff: a Jenkins that is gone in the end still has its conditions stored in the model; such a reconcile counts as one whose base configuration has gone through.
- Building.EnsureResources: secret, config maps, service monitor and route are one request each, without content.
- Building.EnsureClaim: storage class and size are not modelled; a size that cannot be parsed panics.
- Building.Reconcile: nobody else writes to the namespace during one reconcile; the pod is there from its start or not at all.
- JenkinsStatus.Jenkins.SetStatusCondition: reasons, messages and the two times of a condition are not modelled.
- Defaulting.GetCalculatedSpec: fields of the spec that are only copied (annotations, node selectors, security contexts, tolerations, ports, lifecycle hooks) are not part of the model.
- Pods.NewJenkinsMasterContainer: the lifecycle hook, ports and security context are not modelled.
- Pods.NewJenkinsBackupContainer: the command and its arguments are not modelled.
- Pods.NewJenkinsConfigInitContainer: the copying command and the resources are not modelled.
- Pods.NewJenkinsBackupInitContainer: the generated scripts and the resources are not modelled.
- Pods.NewSideContainers: the environment of the reload sidecar, which is filled from a map, is not modelled.
- Image references, download URLs and resource quantities are not parsed: their validity is a parameter.
- Validation.Validate: lookups in the cluster are parameters; the command of the master container and image pull secrets are not checked, as in the code.
- Validation.ValidateContainer: the pattern of image references is a parameter.
- Validation.ValidateConfiguration: the content of a default config map that is created on the way is not modelled, only whether that succeeds.
- ServiceMerge.CreateService: it reads the current Service; an older one would only lead to a refused write.
- ServiceMerge.UpdateService: annotations, type, ports and load balancer fields are overwritten without a merge and are not modelled.
- The JNLP and HTTP labels also reach the route through the shared map; routes are not part of this model.
