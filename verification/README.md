# Deployment, runner, backup and SSH protocols of Coolify: models and proofs

This project models the job classes of Coolify that hold real protocols and real list and text rewrites, and
proves what they promise. `dafny verify dfyconfig.toml` checks everything.

| file | what it models |
|---|---|
| `DeploymentStatus.dfy`, `Wrappers.dfy` | the status of a deployment row; an optional value |
| `MultiServerNotification.dfy` | the one combined notification of a deployment to several servers, as interleaved steps of the parent and any number of children |
| `RollingUpdate.dfy` | the status transitions of a deployment row and the non-forced rolling update under failures and cancellations |
| `BuildPath.dfy` | where a deployment builds, and the recursion restart / skip build / deploy |
| `DockerfileText.dfy` | trimming, splitting and joining text, and reading back what was written |
| `BuildArgs.dfy` | all ARG lines after every FROM line, by splices in reverse order |
| `StageArgs.dfy`, `ComposeArgs.dfy` | the missing ARG lines per build stage, by forward splices with a running offset, on lines and on the text of the file |
| `ComposeSecrets.dfy`, `ComposeSecretsTwice.dfy` | the Dockerfile of a Compose service: both rewrites, and the services that share it |
| `SecretMounts.dfy`, `SecretMountsTwice.dfy` | secret mounts on RUN lines and the removal of keys with a dot; a file on which two runs differ |
| `RailpackConfig.dfy` | the merge of nested ordered maps |
| `GithubRunners.dfy` | provisioning workers, everything that ends an execution, cleanup jobs and the reconciler, as one state machine |
| `GithubRunnerInvariants.dfy`, `GithubRunnerLeaks.dfy` | what every step keeps, and which steps leave containers behind |
| `GithubRunnerThreats.dfy` | which steps expose a runner in use to a cleanup |
| `GithubRunnerResults.dfy`, `GithubRunnerRuns.dfy` | the results over all runs, and runs that show where the promises end |
| `DatabaseBackup.dfy` | a backup run over a list of databases, with failures at every step and death of the worker |
| `SshRetirement.dfy` | retiring SSH masters beside the reaper of orphaned masters |

## How to read the models

Protocols of several processes are state machines: a state, an event type, a partial step function, and results
over all runs from the empty state. Jobs that change their own fields are classes; their loops are loops. The
outside world (SSH, Docker, HTTP, S3, users) is a script of events or a parameter, so that a statement for all
scripts is one for all behaviours of that world. List rewrites are loops proved equal to a recursive definition
about which the laws are then proved.

Some promises do not hold of the code as it is. Each comes with the exact condition or the causes under which it
fails, and with an input or a run that shows it:

- *Verdict of the combined notification.* The status write does not repeat its check, so a cancellation in between
  is overwritten after it was reported (`OverwrittenCancellationReportedAsFailure`). The verdict is that of the rows
  exactly if no child that decides it has moved between finished and not finished since the sender read them
  (`VerdictMatchesRows`).
- *The rolling update never takes the application down.* Laravel calls `failed()` on a fresh copy of the job, on
  which the health flag is not set. If the handler saw the flag of the run, every run would keep the application
  served. On a fresh copy a run takes it down exactly if the new container is accepted, the removal of the old ones
  has an effect and is not cancelled, the status write behind it throws, and the handler then stores its status and
  removes the new container: `Down`, a condition on what happens outside (`Handle`). Such runs exist whenever there
  are old containers and a new one can be accepted at all (`DownIsPossible`).
- *No image is built on a deployments-only server.* It is exactly if a preview deployment with a registry image runs
  on an additional server of this kind and is no restart, its build pack is neither of the two that the rule leaves
  out, and what comes before the build goes well (`BuildPath.DeploymentJob.Handle`). The build server selection is
  skipped there. Previews are queued without a server and so for the main one; the case takes a call of `promote()`
  (app/Livewire/Project/Shared/Destination.php:141-163) that makes this server an additional one before the job
  starts.
- *A finished restart rolled out once.* The early return for remote build-time secrets finishes without a rollout
  (`RolledOutOnce`).
- *The secret rewrite is idempotent.* Exactly if no key has a dot, or the file does not end in a loose zero: a line `0`
  with white space behind it, and after it only lines that are blank, falsy or hold nothing but dotted keys
  (`SecretsFileIdempotentUnlessZero`). `SecretsFileNotIdempotent` gives a file for every list of keys with a dotted one.
- *Services that share a Dockerfile change it like one.* The ARG injection alone always does
  (`InjectedFileIdempotent`). With the secret rewrite behind it, it does without dotted keys, and with them exactly
  under the condition of `SecondServiceKeepsFile` on the Dockerfile before the first service; a bare `RUN` at its end
  is enough to break it (`SecondServiceChangesFile`).
- *The configuration merge is associative.* Exactly if no map is replaced by another kind of value and then merged
  with a map whose first keys are not those of the first one (`MergeAssociativeUnlessClash`, `NotAssociative`).
- *No runner containers are left behind.* `LeakStep` names the steps that leave containers without a cleanup to come,
  place by place, and shows that each of them does and no other step does: a failed removal that was the last one, a
  worker or finisher that dies before the cleanup it owed, and the write of a reader that saw the execution queued.
  That write has no condition (app/Models/GithubRunnerExecution.php:162) and sends no cleanup, so the containers stay
  if it comes after the worker looked for the last time (`ContainersLeftBehind`). They stay until the reconciler lists
  them; it takes them for orphans and removes them (`ReconcilerMakesGood`).
- *Terminal runner statuses are absorbing.* The set of them is (`TerminalStaysTerminal`). A single one is not: it
  changes exactly when someone who read the execution before it ended, or as failed, writes another one
  (`TerminalStatusChanges`), as the completed hook does after a failure (`FailedBecomesCompleted`).
- *The reconciler spares runners that stay occupying.* It removes only what was reserved again after it listed the
  containers (`RemovalSparesTheListedAttempt`), and then it can hit the second attempt
  (`SecondAttemptLosesContainers`).
- *A failed backup leaves no file.* A run leaves a file that no record names exactly if the database at which it was
  interrupted got an id and the worker died once the dump had written something, or the dump was good and its file,
  not deleted after the upload, lost its success update (`LeavesFile`, `RunToTheEnd`).
- *The reaper spares retired masters.* It does if no two retirements under way have reported the same master and every
  successful stop reaches the master that its own check reported (`RetiredIsNeverReaped`). Both conditions are exact:
  once one of them is violated, the run can go on to the reap of a retired master (`SharedMasterIsReaped`,
  `UncheckedStopIsReaped`). `removeMuxFile`, which `refresh_server_connection()` calls without the lock of the
  connection (bootstrap/helpers/remoteProcess.php:447-449), ensures neither: retirements can overlap
  (`OverlappingRetirementsAreUnsafe`), and a new master can take the socket between check and stop
  (`NewMasterTakesTheSocket`). Nor is a master spared if the mark is tested before the socket
  (`MarkBeforeSocketIsUnsafe`).
- *A cleanup spares runners in use.* A job can be assigned to a runner while its worker, whose start command failed,
  is about to clean up. `ThreatStep` names the steps that expose a runner in use to a cleanup and shows that each of
  them does and no other step does; what is exposed can be hit at once (`ThreatenedCanBeHit`), and nothing but the
  reconciler hits anything else (`OnlyThreatenedAreHit`, `HitsWereEndangered`). It happens to the cleanup after the
  third failure (`RunningJobIsHit`) and to the one before a retry (`RetryHitsRunningJob`).

Assumptions about code outside the models:

- Deployments: a refresh and the write that follows it are one step in `RollingUpdate.dfy`; in
  `MultiServerNotification.dfy` they are two. `queue_application_deployment` creates a child row if it returns
  `queued` or throws after the insert. Cache flags do not expire.
- Dockerfile rewrites of a Compose service: build secrets are on and there is at least one of them.
- Runners: a transaction reads committed rows and holds its row locks until it commits; the locks of one transaction
  on the config rows are taken at once; `occupiedRunnerCount()` counts the executions of the config in an occupying
  status. A job is only assigned to a runner that was started in some attempt. The filters for labels, pull requests
  and servers may let any enabled config of the app pass.
- Backups: the random prefix of a job occurs in no record and no file before; `deleteBackupsLocally` removes exactly
  the given file and does not throw.
- SSH: a process is identified by pid and start time; the check of a socket reports exactly the master that listens
  at that moment, and another one may listen when the stop comes;
  a master creates its socket before it reaches the minimum age of an orphan, or never; reaping is enabled.
- Text: white space is the ASCII set that PHP's `trim` removes.

## Model

| member | source | states |
|---|---|---|
| `MultiServerNotification.AtMostOneNotification` | app/Jobs/ApplicationDeploymentJob.php:5926-6003 | under every interleaving of parent and children, with cancellations, restarts and side effects that throw at any point, at most one notification is sent in all, the combined one only with the flag set and children queued, the plain one only without children |
| `MultiServerNotification.SentOnlyWhenAllEnded` | app/Jobs/ApplicationDeploymentJob.php:5983-6003 | at the step that sends, the rows the sender read cover every child and all are ended; they are the current rows if no ended status was replaced |
| `MultiServerNotification.ExactlyOneAtTheEnd` | app/Jobs/ApplicationDeploymentJob.php:5961-5968 | once every actor is through and no side effect threw, exactly one notification was sent, the plain one exactly if there is no child row |
| `MultiServerNotification.VerdictMatchesRows` | app/Jobs/ApplicationDeploymentJob.php:5983-6008 | the notification reports the rows that its sender read and held until it sent; its verdict is that of the rows as they are now exactly if no child that decides it moved between finished and not finished since that read |
| `MultiServerNotification.VerdictOf` | app/Jobs/ApplicationDeploymentJob.php:6005-6008 | success exactly if every row is finished, else the first row that is not |
| `MultiServerNotification.OverwrittenCancellationReportedAsFailure` | app/Jobs/ApplicationDeploymentJob.php:5832-5838 | a run in which a cancellation between check and write is reported as a failure of a child that ends finished |
| `MultiServerNotification.InvStep` | app/Jobs/ApplicationDeploymentJob.php:2815-2879 | every step of dispatching, status writes, cancellation and notification keeps the invariant: snapshots stay right, the flag follows the dispatching, and an unsent notification is owed by an actor that has yet to look |
| `RollingUpdate.FirstCallDecides` | app/Jobs/ApplicationDeploymentJob.php:5832-5853 | for any sequence of complete, fail and cancel calls the first decides the status, and exactly its side effects ran, once |
| `RollingUpdate.EndedIsAbsorbing` | app/Jobs/ApplicationDeploymentJob.php:5870-5889 | no sequence of calls changes an ended row or runs a side effect |
| `RollingUpdate.Deployment.TransitionToStatus` | app/Jobs/ApplicationDeploymentJob.php:5832-5889 | stores the target unless the row ended, throws for a cancelled row, and a throw leaves the row as it was or cancelled |
| `RollingUpdate.Deployment.StartByComposeFile` | app/Jobs/ApplicationDeploymentJob.php:4904-4936 | only the new container can appear, and it has if the command succeeded; a cancelled row throws |
| `RollingUpdate.Deployment.RemoveAll` | app/Jobs/ApplicationDeploymentJob.php:4792-4872 | removes none but the given containers; at least one of them goes exactly if a removal had an effect, none fails the row, and a cancellation among them is the only thing that changes it |
| `RollingUpdate.Deployment.Poll` | app/Jobs/ApplicationDeploymentJob.php:2591-2637 | the first poll that decides or fails settles the result; after a last poll that says starting, the query of the logs can throw |
| `RollingUpdate.Deployment.HealthCheck` | app/Jobs/ApplicationDeploymentJob.php:2563-2637 | the new version is accepted exactly if checks are disabled or, within the retries, the first poll that decides says healthy and nothing threw before |
| `RollingUpdate.Deployment.RemoveOldContainers` | app/Jobs/ApplicationDeploymentJob.php:4842-4860 | never removes the new container, and removes all others if nothing goes wrong |
| `RollingUpdate.Deployment.StopRunningContainer` | app/Jobs/ApplicationDeploymentJob.php:4842-4888 | accepted: only old containers go; not accepted: only the new one goes and the row fails |
| `RollingUpdate.Deployment.RunRollingUpdate` | app/Jobs/ApplicationDeploymentJob.php:2512-2561 | after any failure all old containers are there or the accepted new one is; an unaccepted version never ends finished |
| `RollingUpdate.Deployment.FailedHandler` | app/Jobs/ApplicationDeploymentJob.php:6046-6103 | never touches an ended row, and removes the new container only if it sees no healthy version and no cancellation |
| `RollingUpdate.Deployment.Handle` | app/Jobs/ApplicationDeploymentJob.php:2549-2556 | the application is served after every whole run but those of which the handler runs on a fresh copy and whose events satisfy Down, and not served after these; finished implies an accepted running version |
| `RollingUpdate.DownIsPossible` | app/Jobs/ApplicationDeploymentJob.php:6046-6103 | events that satisfy Down exist exactly if there are old containers and health checks are disabled or polled at least once |
| `BuildPath.DeploymentJob.SelectBuildServer` | app/Jobs/ApplicationDeploymentJob.php:437-488 | a selection that succeeds outside a restart leaves a server that may build, or a job that builds nothing |
| `BuildPath.DeploymentJob.constructor` | app/Jobs/ApplicationDeploymentJob.php:252-273 | Docker image and Dockerfile apps never restart only; the job starts on the main server with nothing built |
| `BuildPath.DeploymentJob.BuildImage` | app/Jobs/ApplicationDeploymentJob.php:2694-2703 | a build starts exactly if what comes before it goes well, on the current server, which may build |
| `BuildPath.DeploymentJob.BuildAndRollOut` | app/Jobs/ApplicationDeploymentJob.php:2694-2708 | at most one build, on the server of the call, then one rollout on the deployment server |
| `BuildPath.DeploymentJob.RollOut` | app/Jobs/ApplicationDeploymentJob.php:2512-2561 | the rollout leaves the build server for the deployment server and never finishes the row |
| `BuildPath.DeploymentJob.DecideWhatToDo` | app/Jobs/ApplicationDeploymentJob.php:572-598 | the recursion ends, and a run that completes or finishes did one rolling update, or none in the one case of an early return |
| `BuildPath.DeploymentJob.JustRestart` | app/Jobs/ApplicationDeploymentJob.php:1428-1448 | same for a restart, counted from its image lookup |
| `BuildPath.DeploymentJob.ShouldSkipBuild` | app/Jobs/ApplicationDeploymentJob.php:1450-1510 | skipping rolled out once; not skipping outside a restart rolled out nothing and left the selection alone |
| `BuildPath.DeploymentJob.DeployBuildPack` | app/Jobs/ApplicationDeploymentJob.php:1097-1232 | reuses or builds, and rolls out exactly once when it succeeds |
| `BuildPath.DeploymentJob.Deploy` | app/Jobs/ApplicationDeploymentJob.php:572-594 | every deployment path keeps builds on servers that may build and rolls out once when it succeeds, Compose apart; a preview whose server became an additional one builds there under every script that reaches the build |
| `BuildPath.DeploymentJob.CheckImage` | app/Jobs/ApplicationDeploymentJob.php:1524-1543 | the image counts as found exactly if the lookup on the server finds it or, with a registry image, the lookup after the pull does; it throws exactly for a cancelled deployment or a failing lookup, not for a failing pull |
| `BuildPath.DeploymentJob.Handle` | app/Jobs/ApplicationDeploymentJob.php:674-703 | a whole deployment builds on a server that cannot build exactly under a condition on the job and its first action, Compose and Docker images apart; additional servers build nothing else; rollouts are on the deployment server; finished means exactly one rollout, or none for the early return |
| `DockerfileText.ImplodeExplode` | app/Jobs/ApplicationDeploymentJob.php:5440 | joining the lines that a text was split into gives the text |
| `DockerfileText.ExplodeImplode` | app/Jobs/ApplicationDeploymentJob.php:5519-5522 | splitting joined lines gives the lines, if none holds a newline |
| `DockerfileText.ReadBackLoose` | app/Jobs/ApplicationDeploymentJob.php:5283 | a written file is read back without the blank lines and the spaces at its end |
| `BuildArgs.FindFromInstructionLines` | app/Jobs/ApplicationDeploymentJob.php:5141-5153 | exactly the FROM indices, in order |
| `BuildArgs.InsertAfterFroms` | app/Jobs/ApplicationDeploymentJob.php:5248-5257 | the reverse nested splices equal the flat map that puts the whole list after each FROM line |
| `BuildArgs.InsertedLength` | app/Jobs/ApplicationDeploymentJob.php:5248-5257 | the length grows by the number of FROM lines times the length of the list |
| `BuildArgs.WhereLinesGo` | app/Jobs/ApplicationDeploymentJob.php:5248-5257 | where each original line is afterwards, and that each FROM line is followed by exactly the list |
| `BuildArgs.InsertTwice` | app/Jobs/ApplicationDeploymentJob.php:5248-5257 | a second run puts its list before the first one: nothing is recognised |
| `BuildArgs.InsertIdempotentIffNothing` | app/Jobs/ApplicationDeploymentJob.php:5248-5257 | the insertion is idempotent exactly if there is no FROM line or no argument |
| `BuildArgs.SecondRunDoubles` | app/Jobs/ApplicationDeploymentJob.php:5184-5233 | two runs with the arguments of the job, none of which is a FROM line, double them |
| `BuildArgs.AddBuildArgs` | app/Jobs/ApplicationDeploymentJob.php:5155-5267 | when the file is written, and what is written; without arguments the file is still written, trimmed |
| `StageArgs.FindFromLines` | app/Jobs/ApplicationDeploymentJob.php:5442-5447 | exactly the FROM indices, in order |
| `StageArgs.StageBlock` | app/Jobs/ApplicationDeploymentJob.php:5492-5504 | the keys of the ARG block at the start of the stage |
| `StageArgs.InsertStage` | app/Jobs/ApplicationDeploymentJob.php:5484-5516 | one turn at the shifted index rewrites the file one stage further |
| `StageArgs.InsertArgs` | app/Jobs/ApplicationDeploymentJob.php:5481-5517 | the loop with its running offset computes the rewrite by stages, for any number of stages |
| `StageArgs.EveryStageDeclaresEveryKey` | app/Jobs/ApplicationDeploymentJob.php:5506-5516 | afterwards the ARG block behind every FROM line declares every key |
| `StageArgs.RewriteIdempotent` | app/Jobs/ApplicationDeploymentJob.php:5481-5517 | a second run adds nothing, for any stages and any leading ARG blocks |
| `StageArgs.RewriteOnlyInserts` | app/Jobs/ApplicationDeploymentJob.php:5512-5516 | the original lines stay, unchanged and in order; only declarations of the keys are added |
| `StageArgs.RewriteConcat` | app/Jobs/ApplicationDeploymentJob.php:5484-5490 | stages are rewritten independently of each other |
| `ComposeArgs.ArgLineDeclares` | app/Jobs/ApplicationDeploymentJob.php:5457-5461 | the line added for a valid key is read back as a declaration of that key |
| `ComposeArgs.ModifyDockerfile` | app/Jobs/ApplicationDeploymentJob.php:5440-5525 | the file is written exactly if a declaration was added, with the rewritten lines |
| `ComposeArgs.InjectedFileIdempotent` | app/Jobs/ApplicationDeploymentJob.php:5440-5525 | on the text of the file, whatever it holds: injecting the ARG lines again changes nothing |
| `ComposeArgs.InjectedFileStages` | app/Jobs/ApplicationDeploymentJob.php:5440-5525 | in the written file every stage declares every key and only declarations were inserted |
| `ComposeSecrets.PlainDeclared` | app/Jobs/ApplicationDeploymentJob.php:5307-5329 | after the secret rewrite every stage still declares every key without a dot, although the filter rewrites and drops lines |
| `ComposeSecrets.SecondService` | app/Jobs/ApplicationDeploymentJob.php:5435-5534 | when the second service leaves the file as the first one wrote it, read off the lines that it reads |
| `ComposeSecretsTwice.SecondServiceKeepsFile` | app/Jobs/ApplicationDeploymentJob.php:5435-5534 | injection and secret rewrite together, for services that share a Dockerfile: the second run changes the file exactly under a condition on the Dockerfile before the first one |
| `ComposeSecretsTwice.SecondServiceKeepsFileWithoutDots` | app/Jobs/ApplicationDeploymentJob.php:5435-5534 | without dotted keys two services that share a Dockerfile always change it like one |
| `ComposeSecretsTwice.SecondServiceChangesFile` | app/Jobs/ApplicationDeploymentJob.php:5353-5358 | for every list of keys with a dotted one, a Dockerfile that the second service changes again |
| `SecretMounts.PipelineHead` | app/Jobs/ApplicationDeploymentJob.php:5285-5288 | the first written line is the syntax line |
| `SecretMounts.WordsJoin` | app/Jobs/ApplicationDeploymentJob.php:5316-5328 | arguments joined with single spaces are split into the same arguments again |
| `SecretMounts.WithoutDottedAgain` | app/Jobs/ApplicationDeploymentJob.php:5309-5329 | removing the dotted keys again removes nothing, and what is left is never falsy |
| `SecretMounts.WithMountsAgain` | app/Jobs/ApplicationDeploymentJob.php:5345-5358 | a line with its mounts is left alone, and every RUN line has a mount afterwards |
| `SecretMounts.SecretsFileIdempotentUnlessZero` | app/Jobs/ApplicationDeploymentJob.php:5269-5368 | for every content: two runs differ from one exactly if there is a dotted key and the content ends in a line 0 with white space behind it, followed only by lines that are blank, falsy or hold only dotted keys |
| `SecretMounts.SecretsFileIdempotent` | app/Jobs/ApplicationDeploymentJob.php:5345-5366 | without dotted keys the rewrite of files is idempotent |
| `SecretMounts.EveryRunMounts` | app/Jobs/ApplicationDeploymentJob.php:5345-5358 | in a written file every RUN line has a secret mount and no ARG or ENV line names a dotted key |
| `SecretMounts.OtherLinesUntouched` | app/Jobs/ApplicationDeploymentJob.php:5304-5358 | apart from the syntax line, all lines but RUN, ARG, ENV and falsy ones stay, unchanged and in order |
| `SecretMounts.OnlyRunLinesChange` | app/Jobs/ApplicationDeploymentJob.php:5334-5358 | without dotted keys every line keeps its place, and exactly the RUN lines without a secret mount change |
| `SecretMountsTwice.SecretsFileNotIdempotent` | app/Jobs/ApplicationDeploymentJob.php:5329 | for every list of keys with a dotted one, a file that two runs change differently from one |
| `RailpackConfig.MergeRailpackConfig` | app/Jobs/ApplicationDeploymentJob.php:3464-3481 | the loop that assigns into the base computes the merge by keys |
| `RailpackConfig.MergeGet` | app/Jobs/ApplicationDeploymentJob.php:3466-3477 | what the merge holds under each key: both maps merged, else the override, else the base |
| `RailpackConfig.BaseKeysComeFirst` | app/Jobs/ApplicationDeploymentJob.php:3466-3480 | base keys keep their places |
| `RailpackConfig.MapStaysMap` | app/Jobs/ApplicationDeploymentJob.php:3455-3462 | merging never turns a map into a list |
| `RailpackConfig.MergeWf` | app/Jobs/ApplicationDeploymentJob.php:3464-3481 | no key occurs twice on any level of a merge |
| `RailpackConfig.MergeSelf` | app/Jobs/ApplicationDeploymentJob.php:3464-3481 | merging an array with itself changes nothing |
| `RailpackConfig.MergeAbsorbs` | app/Jobs/ApplicationDeploymentJob.php:3464-3481 | merging the same overrides again changes nothing |
| `RailpackConfig.MergeLeads` | app/Jobs/ApplicationDeploymentJob.php:3464-3481 | merging gives the overrides themselves exactly if the keys of the base are their first keys, in order and on every level of maps |
| `RailpackConfig.MergeAssociativeUnlessClash` | app/Jobs/ApplicationDeploymentJob.php:3466-3477 | associative exactly if no map is replaced and then merged with a map that it does not lead, on any level |
| `RailpackConfig.NotAssociative` | app/Jobs/ApplicationDeploymentJob.php:3466-3477 | a map, a scalar and a map under one key for which the order of merging shows |
| `GithubRunners.PickIsLeastOccupied` | app/Jobs/ProvisionGithubRunnerJob.php:197-200 | filter, stable sort and first give a least occupied candidate with room, the first by id; none only if none has room |
| `GithubRunnerInvariants.InvStep` | app/Jobs/ProvisionGithubRunnerJob.php:60-216 | every step of workers, finishers, cleanups, hooks, config changes, deletions and reconcilers keeps the invariant |
| `GithubRunnerInvariants.ReserveStep` | app/Jobs/ProvisionGithubRunnerJob.php:176-216 | the write of a reservation keeps capacity, ownership and the counts of the others, while they count and finish |
| `GithubRunnerInvariants.RequeueStep` | app/Jobs/ProvisionGithubRunnerJob.php:131-149 | requeueing keeps them as well: nobody else owns the execution, and no cleanup is pending for it |
| `GithubRunnerInvariants.CheckStep` | app/Jobs/ProvisionGithubRunnerJob.php:105-170 | a status check keeps the invariant: it leads to a cleanup only for an ended execution, and to giving up only after the third attempt |
| `GithubRunnerLeaks.CheckLeaks` | app/Jobs/ProvisionGithubRunnerJob.php:151-170 | a status check leaves no containers behind: a worker that stops looking leaves an execution in use, or has its cleanup ahead |
| `GithubRunnerInvariants.AssignStep` | app/Models/GithubRunnerExecution.php:92-144 | assigning a job, with deletion and replacement of executions, keeps the invariant |
| `GithubRunnerResults.CapacityHolds` | app/Jobs/ProvisionGithubRunnerJob.php:183-200 | no config ever has more occupying executions than the highest max_runners it had |
| `GithubRunnerResults.NeverOverbooked` | app/Jobs/ProvisionGithubRunnerJob.php:176-216 | a config that is never given more than some number never has more, for any number of interleaved workers |
| `GithubRunnerResults.ReservesLeastOccupied` | app/Jobs/ProvisionGithubRunnerJob.php:183-213 | what the write of a reservation does: the row is queued, every config that passed the filter was counted, and the one chosen has room and is the first of the least occupied by counts that can only be too high; no choice only if none of them has room |
| `GithubRunnerResults.CountsAreReal` | app/Jobs/ProvisionGithubRunnerJob.php:183-198 | each of these counts was the occupancy of its config at a moment of the same transaction |
| `GithubRunnerResults.AtMostOneOwner` | app/Jobs/ProvisionGithubRunnerJob.php:179-182 | two workers never own the same execution |
| `GithubRunnerResults.QueuedHasAttemptsLeft` | app/Jobs/ProvisionGithubRunnerJob.php:116-149 | a queued execution has fewer than three attempts and no server, and no execution has more than three |
| `GithubRunnerResults.AttemptsCountReservations` | app/Jobs/ProvisionGithubRunnerJob.php:206-212 | over every run the attempts of an execution grow by its reservations |
| `GithubRunnerResults.AtMostThreeReservations` | app/Jobs/ProvisionGithubRunnerJob.php:116-149 | no execution is ever reserved more than three times |
| `GithubRunnerResults.TerminalStaysTerminal` | app/Enums/GithubRunnerStatus.php:21-39 | an execution that ended stays ended or is deleted |
| `GithubRunnerResults.TerminalStatusChanges` | app/Models/GithubRunnerExecution.php:160-167 | the status of an ended execution changes exactly by the write of someone who ends it differently |
| `GithubRunnerLeaks.RequeueLeaks` | app/Jobs/ProvisionGithubRunnerJob.php:130-145 | requeueing leaves containers behind exactly if the removal before it failed |
| `GithubRunnerLeaks.LeakStep` | app/Jobs/ProvisionGithubRunnerJob.php:60-170 | for every place, from a state in which its containers are used or a cleanup is to come: the next step leaves them behind exactly if it is one of six listed ones |
| `GithubRunnerResults.NoContainersLeftBehind` | app/Jobs/CleanupGithubRunnerJob.php:32-52 | for every place and run, whatever happened at this place or others before: if no step loses the containers, they are used or a cleanup of them is to come |
| `GithubRunnerResults.LeftBehindWereLost` | app/Jobs/CleanupGithubRunnerJob.php:32-52 | containers left behind at the end of a run from the start were lost by one of its steps |
| `GithubRunnerResults.ReconcilerMakesGood` | app/Jobs/ReconcileGithubRunnersJob.php:73-98 | from every state in which containers are left behind, a pass of the reconciler over their server can remove them |
| `GithubRunnerResults.CleanupsComeForTheDone` | app/Jobs/ProvisionGithubRunnerJob.php:116-128 | a pending cleanup belongs to an ended execution or to one that used up its attempts |
| `GithubRunnerResults.RemovalSparesTheListedAttempt` | app/Jobs/ReconcileGithubRunnersJob.php:73-98 | a removal by the reconciler hits an execution in use only if it was reserved again after the listing |
| `GithubRunnerRuns.ContainersLeftBehind` | app/Jobs/ReconcileGithubRunnersJob.php:149-170 | a run after which containers of a timed-out execution exist and nothing is pending |
| `GithubRunnerRuns.SecondAttemptLosesContainers` | app/Jobs/ReconcileGithubRunnersJob.php:95-97 | a run in which the reconciler removes the containers of a second attempt |
| `GithubRunnerThreats.ThreatStep` | app/Jobs/ProvisionGithubRunnerJob.php:103-149 | for every execution that is not threatened: the next step makes it so exactly if its worker gives up or decides to retry while the runner is in use, or a job is assigned while its worker is about to clean up |
| `GithubRunnerThreats.OnlyThreatenedAreHit` | app/Jobs/CleanupGithubRunnerJob.php:32-42 | a step that removes containers of a runner in use is one of the reconciler, or a cleanup of a threatened execution |
| `GithubRunnerThreats.HitsWereEndangered` | app/Jobs/CleanupGithubRunnerJob.php:32-42 | over every run, such a cleanup comes after a step that endangered the execution |
| `GithubRunnerThreats.ThreatenedCanBeHit` | app/Jobs/ProvisionGithubRunnerJob.php:116-131 | from every state in which an execution is threatened, a cleanup that removes its containers can come at once |
| `GithubRunnerRuns.RunningJobLosesContainers` | app/Jobs/ProvisionGithubRunnerJob.php:116-128 | from every state in which a worker gives up on an execution whose runner was started: the cleanup it dispatches can hit a job that was assigned meanwhile |
| `GithubRunnerRuns.RunningJobIsHit` | app/Jobs/ProvisionGithubRunnerJob.php:111-128 | a run in which the start command of the third attempt fails after the runner started, and the containers of its running job are removed |
| `GithubRunnerRuns.RetryHitsRunningJob` | app/Jobs/ProvisionGithubRunnerJob.php:130-131 | the same for the cleanup before a retry, in the first attempt |
| `DatabaseBackup.BackupRun.NewUuid` | app/Jobs/DatabaseBackupJob.php:333-342 | the first of three ids that is not taken; fails exactly if all are taken |
| `DatabaseBackup.BackupRun.CreateLocalBackup` | app/Jobs/DatabaseBackupJob.php:348-456 | the record and the file that step 1 makes, and when it succeeds |
| `DatabaseBackup.BackupRun.LocalBackupFailed` | app/Jobs/DatabaseBackupJob.php:457-481 | a failed backup loses its file and its filename, and nothing else changes |
| `DatabaseBackup.BackupRun.UploadAndReport` | app/Jobs/DatabaseBackupJob.php:483-521 | the success record, and the local file goes only after a full upload; when an interrupted report leaves a file that the record does not track |
| `DatabaseBackup.BackupRun.BackUp` | app/Jobs/DatabaseBackupJob.php:325-535 | one database leaves records and files in agreement and those of all others alone; what its record says is a function of what happened |
| `DatabaseBackup.BackupRun.Handle` | app/Jobs/DatabaseBackupJob.php:325-555 | after a normal end the files of the run are those its success records track, each database came out as promised with an execution of its own, and nothing of other runs changed; after any other end all but the interrupted execution agree |
| `DatabaseBackup.BackupRun.JobFailed` | app/Jobs/DatabaseBackupJob.php:1045-1077 | on a fresh copy, every unfinished execution of the run is failed and no other record changes |
| `DatabaseBackup.BackupRun.RunToTheEnd` | app/Jobs/DatabaseBackupJob.php:1059-1112 | after failed() nothing of the run is unfinished, finished records and other runs are as they were, every tracked file is there, and an untracked file of the run exists exactly if the run was interrupted at a database that got an id and whose events satisfy LeavesFile |
| `DatabaseBackup.FailedKeeps` | app/Jobs/DatabaseBackupJob.php:1066-1077 | failed() changes exactly the unfinished executions of the run |
| `SshRetirement.RetiredIsNeverReaped` | app/Jobs/CleanupStaleMultiplexedConnections.php:38-60 | if no two retirements under way have reported the same master and every successful stop reaches the master that its check reported, the reaper kills neither a master retired by a stop nor one that listens on its socket, nor a young one |
| `SshRetirement.UncheckedStopIsReaped` | app/Helpers/SshMultiplexingHelper.php:93-110 | the condition on stops is exact: from every state reached under both, after a stop that reaches another master the run can go on to the reap of a retired one |
| `SshRetirement.SharedMasterIsReaped` | app/Helpers/SshMultiplexingHelper.php:93-110 | the condition on checks is exact as well: from every state reached under both, after a check that reports a master that another retirement under way has reported |
| `SshRetirement.NewMasterTakesTheSocket` | bootstrap/helpers/remoteProcess.php:442-450 | without the lock such a stop does happen, in a run without any overlap |
| `SshRetirement.InvStep` | app/Helpers/SshMultiplexingHelper.php:93-132 | under the two conditions every step of check, mark, stop, unmark, deletion, establishment, exit and reaping keeps the marks of retired masters, the meaning of every mark, and what the reaper knows |
| `SshRetirement.OverlappingRetirementsAreUnsafe` | app/Helpers/SshMultiplexingHelper.php:106-110 | a run in which a second, failing stop takes the mark away and the reaper is about to kill the retired master |
| `SshRetirement.MarkBeforeSocketIsUnsafe` | app/Jobs/CleanupStaleMultiplexedConnections.php:55-57 | a run in which a reaper that tests the mark first is about to kill a retired master |

## Left out

- Forced rolling updates (consistent container names, host port mappings), Swarm, and the part of `failed()` for preview deployments and consistent names: these take the old version down by design.
- Compose deployments: they build on the current server and restart services without a rolling update, so the results on rollouts exclude them.
- The delayed second attempt to remove a container whose removal timed out.
- Post-deployment commands, configuration snapshots, registry pushes after the build, and image cleanup of a deployment.
- `SecretMounts.Words`: one set of white space stands for both that of `trim` (which has NUL) and that of the pattern `\s` (which has the form feed), so lines with either character are not modelled exactly.
- `DockerfileText.Trim`: Laravel's string helper also trims Unicode white space at the ends of a file; only the ASCII set is modelled.
- Invalid variable names: the rewrites throw before they write anything, so the results are about valid names.
- Reading and writing files through remote commands, base64 and logging of the Dockerfile rewrites.
- JSON decoding of a configuration, and PHP's cast of numeric string keys to integers: entries come with their keys.
- Deletion of a server or of a runner config, deregistration at GitHub, webhook authentication, and label matching: the matching is an arbitrary filter.
- Timeouts of the reconciler: when it ends an execution is arbitrary, since every active execution can be ended at any moment.
- `GithubRunnerResults.NoContainersLeftBehind`: says nothing about executions whose row was deleted, because their cleanup finds no row and removes nothing.
- `GithubRunnerLeaks.LeakStep`: as above, a deleted row takes its containers out of the statement.
- Retention of old backups, stale executions of earlier runs, notifications and messages of a backup run, and skipped runs.
- `DatabaseBackup.BackupRun.JobFailed`: models jobs queued with a prefix, because a job that was queued before the prefix existed cannot find its executions from a fresh copy.
- The cloudflared reaper and the check of stale socket files: loops over one snapshot that would only add easy members.
- Lock expiry, cache expiry, pid reuse between the snapshot and the kill, and process namespaces.
