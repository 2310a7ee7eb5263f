# Verified models of the deployment and evidence tooling

A Dafny model of the parts of this repository that change a live host or decide
whether a change may go live, with the properties they are built for. `dafny verify
dfyconfig.toml` checks all of it; every file is one module of the same name.

Crash safety is modelled alike everywhere. An object holds what survives the process,
every atomic change goes through one method (`Become`) that appends the new state to a
trace, and the class invariant says that *every* state of the trace meets the safety
predicate. A kill (`Kill`) resumes from any state of the trace, so whatever a recovery
is handed has been proved to be a state it can deal with. What an attempt or
transaction is compared with is the state in which it began, and each `Lifetime` says
that this state was there. Every command may also fail, before or after its effect.

## Deployment protocol

`DeploymentWorld` has the host (running services, one-off web slots, tags, the managed
Nginx file, what Nginx has loaded, managed files) and the receiver's durable records
(plan, journals, backups), and the invariant `Good`. `DeploymentMachine` has the
atomic steps, `DeploymentHost` the steps of the host and its rollback,
`DeploymentEngine` the journal and both engines, `DeploymentReceiver` the receiver and
its histories.

* **Users are always served.** At every instant of every history of requests,
  failures, kills and recoveries, the upstream Nginx has loaded names a running
  container. No step stops, removes or recreates a container unless another loaded
  target is up.
* **Write-ahead cover.** While a plan is on disk, its flags and slot names cover every
  change to files and slots, and, flag by flag, every change to containers and routes,
  unless a raised save kept that very flag off the disk
  (`DeploymentSteps.CoverByFlag`). Its backup equals the state before the attempt, and
  the memory of the process extends it. Flags are ordered (marker, then Gunicorn,
  workers, statics, traffic, migration), and traffic implies recorded previous slots,
  so the rollback's fallback for missing slots is dead code.
* **Rollback is exact.** A rollback that returns has put back images, references,
  Dockerfile, markers, static manifest, upstream file and route, removed the slots and
  dropped the plan. Without a plan on disk it restores every file, and the managed
  upstream exactly if its backup copy was whole. Before the point from which only
  slots, tags and the plan go, a failure keeps the plan and every slot.
* **Rollback happens.** Every failed step is counted, and so is a check that ends an
  attempt. A deployment in which at most one step failed leaves no plan behind and is
  restored, with one exception that can be read off the host: with traffic switched,
  Gunicorn is gone or stands at the largest scale (`DeploymentViews.Blocked`). In any
  other state nothing but a failed step of its own makes a rollback raise; in
  particular, what it has recreated passes its own health check. A preflight leaves a
  plan only where a step of its rollback failed.
* **One beat.** No instant of any history, deployment or rollback, runs two beat
  schedulers, if the first host did not: neither two replicas nor an old container
  beside a new one (`DeploymentReceiver.NeverTwoBeats`). On any other host no
  attempt ever runs more of them than ran before it.
* **No plan, no trace.** Whatever raised: an attempt that is not committed and has
  left no plan is restored, but for a managed file that a plain copy cut short
  (`DeploymentEngine.UncommittedRests`).
* **Commit.** A run that returns is committed and deployed: every service runs its
  candidate image at its captured scale, Dockerfile, schema, static manifest and both
  markers are the release's, and Gunicorn alone is loaded. After the commit nothing is
  rolled back; a leftover plan is recognised as stale.
* **Preflight** leaves the host as it was, without moving a container or a route.

## Transactional installers

`ReceiverUpgrade` works on one file system tree: candidates are copied to temporary
siblings, exchanged with their targets and removed, each step at its path. At every
instant the eight targets are the snapshot, or the committed staging, or the durable
transaction says recovery is required, with one exception that is exhibited; a
completed restore is exact, however often it was interrupted, and nothing outside the
targets and their siblings ever changes. That follows from the disjointness of target
subtrees and siblings, proved there of the actual paths. An upgrade that raises with one
failed step has its snapshot back and on record. `FileTree` has the trees:
lookup, replacement at a path and what it leaves alone, and listings, which are equal
exactly when trees are.

`DiagnosticsInstall`: under any history of installations and recoveries, a host
without a marker is exactly as before or exactly the new installation, and `current`
never names a release that was not staged; an installation in which one step fails is
undone by the same process, but for a failure after its last write.

## Evidence mirror and collection

`PublishMirror`: over late inserts, rolling retention, replaced databases, lost state
and any number of runs cut short, a finished run has mirrored every retained row up to
the saved one but for an exactly described set of missed rows, and the mirror is what
a rebuild from the log table would write exactly if no retained row is lacking. Only a
rebuild during which rows arrive adds to that set, and a row leaves it once its hour
is exported or its retention ends. `ShardPacking`: parts are the records in order,
within the limit, and no order-preserving split uses fewer. `LogCollection`: over any
history of runs that fail, are cut short or are lost, the stored rows and gaps are
exactly those delivered and reported within retention, no fingerprint is stored twice,
no text is stored before it was redacted,
and, if complete reads deliver what Docker promises, no line up to two seconds before
a container's last complete read is missing.

## Streams and parsers

`LogLines` and `LogBatches`: what is read depends on the bytes and not on the chunks;
the batches hold exactly the lines of the stream, each once, and no owner record or
second is split (`LogBatches.BatchStream`). `Nginx`: parsing undoes printing,
acceptance is balance, and the rendered upstream parses to one server per target with
`backup` exactly on the backups. `Png`: acceptance is exactly the encoding of a legal
chunk list (sections 3.2, 3.4 and 4.1 of RFC 2083). `RequirementIncludes`: reading
terminates on every include graph and succeeds exactly when the includes unfold to the
end with every name declared once.

## Folds over evidence

`ReviewEvidence` and `ReviewDiscussion`: the snapshot does not depend on the order of
delivery, means what the reviews say, and passes exactly if it could be read
completely, no identity comes twice and nothing is left open
(`ReviewDiscussion.Assess`). `RecoveredLogs`: on every prefix, per source and per
second, accepted task errors never exceed accepted 404 records, also when incidents
are replaced; every record is retained, withheld or scanned, exactly one of the three.

## What the proofs showed

* Restart baselines are not in the plan (`ops/deploy/docker_host.py:594-673`), yet
  verification asks for them (`ops/deploy/docker_host.py:4392-4396`). A recovery by a
  later process of an attempt that had begun to migrate can therefore never complete:
  `DeploymentViews.HydratedNeverHealthy`, and the fourth postcondition of
  `DeploymentReceiver.Recover`. It stays safe and keeps plan and slots.
* With traffic switched, rollback begins with a route that names Gunicorn as a backup.
  While Gunicorn does not run, `nginx -t` refuses that route and rollback stops there:
  the last two postconditions of `DeploymentHost.DockerHost.Rollback`.
* That route names every previous slot as well. With 128 Gunicorn replicas, which the
  capture accepts, it exceeds the limit of 128 servers (`DeploymentViews.NoRoom`): the
  switch before static collection raises after its flag was saved, and the rollback
  stops at the same route with the plan left behind.
* Before the first plan is saved, a rollback copies the backup back. If the copy of
  the managed upstream into the backup was cut short, that is what is put back, and
  rollback returns normally: `DeploymentWitness.TornUpstream`. It happens exactly if
  the backup's copy is not whole (`DeploymentHost.DockerHost.Rollback`). A copy of the
  Dockerfile that was cut short never gets that far, since the settings were not
  copied yet (`DeploymentWorld.Copies`); only the copy over the live Dockerfile itself
  may be cut short, and then rollback raises.
* If a plan save fails and the rollback then goes on, what it does to containers and
  routes may be covered by the flags in memory and not by those on disk. The history
  variable `lost` holds the flags in question; `DeploymentWitness.LostFlags` has a
  host for each of the three, `LoseTraffic`, `LoseWorkers` and `LoseGunicorn` there
  run into one step by step, and `DeploymentSteps.CoverByFlag` the exact condition.
* Between the two commit writes the attempt may count as finished while `current.json`
  is old (`unsettled`), even though everything has been put back:
  `DeploymentWitness.UnsettledCommit` and `DeploymentWitness.UnsettledRun`.
* A rebuild reads the oldest stamp before the sequence; a row that arrives in between,
  into an hour the run does not export, is missed although the saved state names it
  (`PublishMirror.ReadGap`). `PublishMirror.Publisher.Publish` says exactly which rows
  are missed after any finished run, and for how long: until their hour is exported
  again or they are no longer retained.
* If writing the `completed` record fails after it reached the disk, and the
  correction fails as well, a half-restored disk says that the upgrade is complete,
  and recovery refuses it: `ReceiverUpgrade.Misled`, for any two versions that differ
  in the first target and another. `ReceiverUpgrade.HonestTransaction` says that
  nothing else can make the record lie.
* A diagnostics installation over a `current` link that is no release link writes a
  marker that recovery refuses: the fourth postcondition of `DiagnosticsInstall.Installer.Recover`.
* A quoted brace or semicolon becomes a structural token (`Nginx.QuotedBrace`), so
  printing is undone exactly on trees without such words (`Nginx.RoundTrip`).

## Assumptions

* Containers stop only through receiver steps; infrastructure containers are never
  touched; the receiver's lock excludes a second receiver.
* `nginx -t` passes only if every named server runs; a reload loads the tested file or
  keeps what was loaded; file replacement by rename is atomic.
* The receiver configuration has the current schema version, so an upstream file is
  managed. Image identities and digests are injective.
* Attempt names, store identities and row ids are not reused; the publisher's clock
  does not go back; the collector does not prune below a running publication's cutoff;
  a state without a `store_id` match is rebuilt.
* A complete `docker logs` delivers every line of its interval that is at least two
  seconds old (`LogCollection.Candid`); disabling an existing timer unit works;
  scanned trees hold no symbolic links.

## Model

The first 42 rows are the main results, the others the steps they are built from,
module by module.

| member | source | states |
|---|---|---|
| DeploymentReceiver.Lifetime | ops/deploy/receiver.py:178-234 | For any list of requests, each receiver run to its end or killed at any recorded instant: one visit per request, each starting where the one before ended, with the end facts of a receiver that ran on; every instant satisfies the invariant against the world in which its attempt began, and that world was there before; and if the first world ran at most one beat scheduler, no instant ever runs two |
| DeploymentReceiver.Guarantees | ops/deploy/docker_host.py:5896-6056 | At every instant of every history the loaded upstream names a running container, at most one beat scheduler runs, or no more than before the attempt, every journal is a prefix of the fixed order, and a plan on disk is ahead of every change to files and slots, and, while the flags on disk are those in memory, of every change to containers and routes; with no plan on disk and no commit, images, references, slots and files are as before the attempt, but for a file cut short by a plain copy |
| DeploymentReceiver.Receive | ops/deploy/receiver.py:178-234 | An old plan is consumed first and the new archive is not read; a finished deploy is committed and deployed; a finished preflight leaves the host as it was; any failed run that leaves no plan behind has restored the host; a deploy with at most one failure leaves none unless its rollback was blocked, a preflight or a recovery without a failure leaves none, unless the plan cannot be recovered at all |
| DeploymentReceiver.Recover | ops/deploy/docker_host.py:941-971 | One plan is consumed: a committed attempt only loses its stale plan, any other is rolled back from durable state alone; with the migration flag raised the recovery raises and keeps the plan and every slot; otherwise, and unless the plan is the retained one, it raises only if a step fails |
| DeploymentHost.DockerHost.Rollback | ops/deploy/docker_host.py:5896-6056 | It raises only if a step of its own fails, or where it is stuck: traffic switched with Gunicorn gone or at the largest scale, or a migration whose restart counts died with another process. A normal return means images, references, files, route, slots and the plan are as captured; if the plan is gone the host is restored, whatever raised; without a plan on disk every file is the captured one, and the managed upstream is exactly if its backup copy was whole before the call; before the cleaning point a failure keeps the plan and every slot; a hydrated post-migration rollback never reaches it; with traffic switched and Gunicorn absent it stops at once with only the route possibly changed |
| DeploymentSteps.CoverByFlag | ops/deploy/docker_host.py:594-701 | Flag by flag, the plan on disk covers containers and routes unless a raised save kept that flag off the disk; with equal flags it covers everything, and where it does not its migration flag is raised |
| DeploymentEngine.DeploymentEngine.Run | ops/deploy/engine.py:471-563 | A return means committed and deployed: candidate images at the captured scale, release Dockerfile, migrated schema, collected statics, both markers, Gunicorn alone loaded; a raise means not committed, or committed by the first of two writes only, and in both cases restored unless a plan is left behind; if at most one step failed no plan is left behind, unless the first route of the rollback was blocked: Gunicorn gone, or at the largest scale, with traffic switched |
| DeploymentEngine.PreflightEngine.Run | ops/deploy/engine.py:422-461 | Whether or not the candidate builds, a run that leaves no plan leaves the host as it was; success moved no container and no route; only a failed step can leave a plan behind, and after a failed inspection only a second one |
| DeploymentViews.HydratedNeverHealthy | ops/deploy/docker_host.py:4392-4396 | A process hydrated from a plan has no restart baselines and can never pass the health check |
| DeploymentReceiver.NeverTwoBeats | ops/deploy/docker_host.py:4433-4446 | However long the history, no instant has two beat schedulers if the first world had not |
| DeploymentWitness.TornUpstream | ops/deploy/docker_host.py:2714-2715 | A host whose backup copy of the managed upstream was cut short: a rollback that returns makes the rest of the copy the managed upstream |
| DeploymentWitness.LostFlags | ops/deploy/docker_host.py:688-701 | Three hosts, one for each flag a raised save can keep off the disk, on which the flags on disk do not cover what has changed |
| DeploymentWitness.UnsettledRun | ops/deploy/engine.py:502-543 | A receiver run that raises after the first commit write and leaves no plan: the journal says success, and the host is restored and not deployed |
| ReceiverUpgrade.Lifetime | ops/deploy/receiver_upgrade.py:1406-1812 | One upgrade and any number of recoveries, each killed anywhere: from the starting disk to the last, at every instant the live targets are the snapshot, or completion is recorded and they are the staging, or the transaction says recovery is required, unless recording completion raised after it was written; and nothing outside the targets and their temporary siblings changes |
| ReceiverUpgrade.HonestTransaction | ops/deploy/receiver_upgrade.py:1048-1081 | Live targets equal to neither snapshot nor staging mean an intact backup and a recovery requirement, unless recording completion raised and yet left that record |
| ReceiverUpgrade.Misled | ops/deploy/receiver_upgrade.py:1048-1081 | For any two versions that differ in the first target and another: a run whose last record says completed while the disk holds neither version, and which recovery refuses |
| ReceiverUpgrade.Upgrade.Execute | ops/deploy/receiver_upgrade.py:1406-1682 | Done means staged; a raise means the snapshot is back, or recovery is required, or completion is on record after it raised. If no second step failed the snapshot is back, with `rolled-back` on record, or `rollback-failed` where the nested preflight left something unresolved |
| ReceiverUpgrade.Upgrade.Restore | ops/deploy/receiver_upgrade.py:1165-1203 | A return means all eight targets equal the snapshot in presence and tree, from whatever state it started in, and nothing outside them differs; where the parents of the targets exist a raise means a failed step |
| FileTree.FaithfulListing | ops/deploy/receiver_upgrade.py:580-594 | Two listings are equal exactly when the trees are: kinds, modes, owners and contents |
| DiagnosticsInstall.Lifetime | ops/diagnostics/buh_diagnostics_install.py:272-370 | Any history of installations and recoveries, each killed anywhere: one visit per command, each starting where the one before ended, with the end facts of a command that ran on; every instant satisfies the invariant against a state the disk had before |
| DiagnosticsInstall.Installer.Install | ops/diagnostics/buh_diagnostics_install.py:313-370 | A return means exactly the new installation without a marker; an installed payload is refused without a change; if at most one step fails, a raise leaves everything as it was, or the complete installation if the last step failed, unless no release owns the old link |
| DiagnosticsInstall.AllOrNothing | ops/diagnostics/buh_diagnostics_install.py:272-370 | Without a marker the host is as before or exactly the new installation, and current never names an unstaged release |
| PublishMirror.Publisher.Publish | ops/diagnostics/buh_diagnostics_publish.py:222-294 | A finished run leaves an index of exactly the hours of the mirror with their record counts; every hour is whole and holds retained rows of that hour only; and, of the retained rows up to the saved one, exactly those in `missed` missing; the mirror equals a rebuild exactly if no retained row is lacking. An incremental run adds nothing to `missed`: a row stays in it only while it is retained and its hour is not exported. A rebuild misses only rows that arrived while it ran, in hours it does not export |
| PublishMirror.Lifetime | ops/diagnostics/buh_diagnostics_publish.py:222-294 | Over any history of inserts, clock, pruning, new stores, lost state and runs cut short: after every finished run each record that came in before it and is retained is mirrored or known to be missed, the mirror equals a rebuild exactly if it lacks nothing, every missed row arrived during some earlier rebuild, and nothing but a rebuild adds to the missed rows |
| PublishMirror.ReadGap | ops/diagnostics/buh_diagnostics_publish.py:246-251 | A run during which one row arrives between the two reads: if it finishes, the state it saves names the row and the mirror does not hold it |
| ShardPacking.ExportHour | ops/diagnostics/buh_diagnostics_publish.py:69-123 | Raises exactly for an oversized record; otherwise the parts are the records in order, none empty, each within the limit, in the least possible number, and the summary counts are the numbers of entries and of errors of each service |
| LogCollection.Lifetime | ops/diagnostics/buh_host_diagnostics.py:429-454 | Over any history of runs, failed, cut short or lost: rows and gaps are exactly those delivered and reported by committed runs within retention, no fingerprint is stored twice, every cursor stands two seconds before the last complete read, and every line a container wrote up to there and within retention is stored, cut if oversized, redacted, and replaced by the marker if it still looks like a credential; nothing else is stored: every stored text is the marker, or redacted and without such a shape |
| LogCollection.NothingMissed | ops/diagnostics/buh_host_diagnostics.py:429-454 | If complete reads deliver their interval, every line up to two seconds before the last complete read, and within retention, was delivered by some committed run |
| LogBatches.BatchStream | ops/deploy/docker_host.py:5099-5108 | The stream read to its end and batched: it ends exactly if no line is oversized or unfinished, no owner record beyond the limits and no second overfull, and the batches then hold exactly the stripped pieces between newlines, however the bytes were cut; every record stands in one piece, an owner record in the batch of its second, any other among the ordinary lines |
| LogLines.StreamLines | ops/deploy/docker_host.py:4775-4801 | The pieces are the only cut of the whole stream at its newlines; a return happens exactly when none is oversized and the last is empty, and delivers all others without their trailing carriage returns, whatever the chunks; before a raise only leading ones were delivered |
| LogBatches.Batches | ops/deploy/docker_host.py:4828-4961 | Raises exactly for an unsafe owner record or an overfull second; otherwise the batches hold every line exactly once, ordinary lines in order and in bounded batches, every record in one piece, every second of owner records in one batch |
| Nginx.RoundTrip | ops/deploy/docker_host.py:326-366 | Printing is undone exactly on trees of plain words |
| Nginx.AcceptsBalanced | ops/deploy/docker_host.py:333-363 | A configuration is accepted exactly when its structural tokens balance, no scope is anonymous and none ends inside a directive |
| Nginx.RenderParses | ops/deploy/docker_host.py:1314-1348 | A file is rendered exactly for at least one target, at most 128 servers, safe names and no repetition; it parses to one upstream scope with `server target:port max_fails=1 fail_timeout=5s` for each target in order, then for each backup the same with `backup` last |
| Png.AcceptanceIsExact | ops/readiness.py:937-997 | The walk accepts exactly such payloads |
| RequirementIncludes.ReadingIsExact | ops/supply_chain.py:80-108 | Reading succeeds with some pins exactly when the includes unfold to the end and every name is declared once over the unfolding, and the pins are then their disjoint union |
| RequirementIncludes.Reader.ExactInputs | ops/supply_chain.py:80-108 | Terminates on every include graph and returns what the specification says; the shared set is back as it was |
| ReviewDiscussion.Assess | ops/readiness.py:2398-2399 | Gathered and validated, evidence passes exactly if the threads end within a hundred pages, every thread is complete, no identity comes twice, and nothing is left open: no author's last word requests changes, a later approval or dismissal of its author closes every serious review, every thread with a serious comment is resolved, and no other comment but the pointer is serious |
| ReviewEvidence.OnlyFindings | ops/readiness.py:309-318 | A snapshot is never refused for its shape; it is clean exactly when no last actionable review requests changes and no serious open review is unclosed |
| ReviewDiscussion.EvidenceOrderFree | ops/readiness.py:1085-1294 | Any order of reviews, threads and issue comments gives the same evidence |
| RecoveredLogs.RecoveredLogReview.ReviewText | ops/deploy/recovered_logs.py:464-494 | Every record is retained, withheld or handed to the strict scan, exactly one of the three and in order: its lines, or one marker line in their place; the log grows by one entry for each retained record, and the accounts stay balanced |
| RecoveredLogs.BalancedNext | ops/deploy/recovered_logs.py:291-327 | On every prefix, per source and per event time, task errors never exceed 404 records |
| DeploymentReceiver.Attempt | ops/deploy/receiver.py:208-232 | One journaled attempt, preflight or deploy, from an unused attempt name: finished means deployed or restored, and a failure that leaves no plan means restored; at most one failed step leaves no plan, unless the rollback was blocked |
| DeploymentReceiver.Visiting | ops/deploy/receiver.py:178-234 | One receiver, killed at any instant or run to its end, extends the history |
| DeploymentReceiver.VisitedMore | ops/deploy/receiver.py:178-234 | One more visit, starting from what was left, extends the list of visits |
| DeploymentReceiver.AccountedMore | ops/deploy/receiver.py:178-234 | The instants of one more receiver extend the history, with a baseline that is part of it |
| DeploymentReceiver.CommittedDrops | ops/deploy/docker_host.py:957-969 | Dropping the plan of an attempt whose journal says success is always safe |
| DeploymentSteps.UpstreamStep | ops/deploy/docker_host.py:1423-1441 | Writing the managed upstream keeps the invariant if the traffic flag is durable, or the old bytes are put back |
| DeploymentSteps.BeatKept | ops/deploy/docker_host.py:4433-4446 | Changing the replicas of one service adds no scheduler, unless it is the beat itself with more than one |
| DeploymentSteps.RecreateStep | ops/deploy/docker_host.py:4422-4446 | Recreating one service keeps the invariant: announced by the durable flag, with another loaded target up, and the beat with at most one replica and no old group beside it |
| DeploymentSteps.PlanStep | ops/deploy/docker_host.py:675-686 | Replacing the plan keeps the invariant when the new plan covers everything done so far |
| DeploymentSteps.LoseStep | ops/deploy/docker_host.py:688-701 | A raised save that left the old plan keeps the invariant: the flags it did not write are recorded as lost |
| DeploymentSteps.LoadStep | ops/deploy/docker_host.py:1378-1382 | A reload of a tested file keeps users served once the traffic flag is durable |
| DeploymentSteps.StartStep | ops/deploy/docker_host.py:4047-4072 | A slot may start once its name is in the durable plan |
| DeploymentSteps.RemoveStep | ops/deploy/docker_host.py:4192-4218 | A slot may go only while another loaded target is up, under a plan or after the commit |
| DeploymentSteps.TagStep | ops/deploy/docker_host.py:4220-4234 | A Compose reference may move under a plan, or back to the image that runs |
| DeploymentSteps.StaticsStep | ops/deploy/docker_host.py:3118-3131 | The shared static manifest may change only under its durable flag |
| DeploymentSteps.PlatformStep | ops/deploy/docker_host.py:5788-5790 | CURRENT.json may change only under its durable flag, or back to its captured form |
| DeploymentSteps.PointerStep | ops/deploy/docker_host.py:1265-1312 | current.json may change only under the marker flag, or back to its captured form |
| DeploymentSteps.ArmedFacts | ops/deploy/docker_host.py:594-673 | What a plan on disk guarantees: ordered flags, a complete backup equal to the state before the attempt, traffic only with previous slots recorded, journal and flags consistent |
| DeploymentSteps.ServesAsBefore | ops/deploy/docker_host.py:5983-5993 | While traffic was never switched, what is loaded and what runs is as before the attempt |
| DeploymentSteps.SlotsAsBefore | ops/deploy/docker_host.py:6050-6052 | With the own slots gone the slots are those of before the attempt |
| DeploymentSteps.RestStep | ops/deploy/docker_host.py:703-722 | The plan may be dropped once files, references, images, route and slots are back, every file exactly |
| DeploymentSteps.BeginStep | ops/deploy/engine.py:283-294 | With no plan on disk the world itself is a sound baseline for the next attempt |
| DeploymentSteps.RecordStep | ops/deploy/engine.py:293-331 | A journal write keeps the invariant if the flags raised so far fit the recorded state |
| DeploymentSteps.CommitStep | ops/deploy/engine.py:333-338 | The first commit write keeps the invariant while the commit is under way |
| DeploymentSteps.SettleStep | ops/deploy/engine.py:339-347 | After both commit writes the attempt is committed and deployed |
| DeploymentSteps.DropStep | ops/deploy/docker_host.py:703-722 | Removing the plan keeps the invariant once the host is at rest |
| DeploymentMachine.Machine.Begin | ops/deploy/engine.py:283-286 | A new attempt takes the present world as its baseline |
| DeploymentMachine.Machine.SaveRecord | ops/deploy/engine.py:293-294 | An atomic journal write happened or did not; a return means it did |
| DeploymentMachine.Machine.Intend | ops/deploy/docker_host.py:3118-3118 | Flags are raised in memory before anything on disk changes |
| DeploymentMachine.Machine.SavePlan | ops/deploy/docker_host.py:675-686 | The plan is replaced, or the old one stays and the flags that did not reach the disk are remembered |
| DeploymentMachine.Machine.DropPlan | ops/deploy/docker_host.py:703-722 | The plan is removed only where the host is at rest |
| DeploymentMachine.Machine.CommitRecord | ops/deploy/engine.py:333-338 | The first commit write: success on disk while the pointer may still be old |
| DeploymentMachine.Machine.Settle | ops/deploy/engine.py:339-347 | Both writes have returned and the new release is in place |
| DeploymentMachine.Machine.CreateBackup | ops/deploy/docker_host.py:2690-2691 | The backup directory is new or the attempt raises |
| DeploymentMachine.Machine.CopyToBackup | ops/deploy/docker_host.py:2704-2715 | A plain copy into the backup may be torn, and the backup then says so; nothing live changes |
| DeploymentMachine.Machine.CopyDockerfile | ops/deploy/docker_host.py:2608-2608 | A plain copy over the live Dockerfile may leave it truncated; a return means the backed-up bytes |
| DeploymentMachine.Machine.WriteUpstream | ops/deploy/docker_host.py:1423-1441 | The managed file is replaced atomically, to new bytes only under the traffic flag |
| DeploymentMachine.Machine.WritePlatform | ops/deploy/docker_host.py:5788-5790 | CURRENT.json is replaced atomically under its flag |
| DeploymentMachine.Machine.WritePointer | ops/deploy/docker_host.py:1265-1312 | current.json is replaced atomically under the marker flag |
| DeploymentMachine.Machine.RestoreStatics | ops/deploy/docker_host.py:3797-3875 | The captured manifest is restored through some running container |
| DeploymentMachine.Machine.Migrate | ops/deploy/docker_host.py:3120-3125 | Only the schema changes, under the migration flag |
| DeploymentMachine.Machine.Collect | ops/deploy/docker_host.py:3129-3134 | Only the shared manifest changes, under its flag |
| DeploymentMachine.Machine.Tag | ops/deploy/docker_host.py:4220-4234 | One reference is moved, or none |
| DeploymentMachine.Machine.NginxTest | ops/deploy/docker_host.py:1378-1382 | A passed test means every named server runs |
| DeploymentMachine.Machine.NginxReload | ops/deploy/docker_host.py:1378-1382 | A reload loads the file as it is or keeps what was loaded; an unresolvable file is never loaded |
| DeploymentMachine.Machine.StartSlot | ops/deploy/docker_host.py:4054-4072 | A listed slot starts from the tag Compose resolves, and nothing else changes |
| DeploymentMachine.Machine.RemoveSlot | ops/deploy/docker_host.py:4192-4218 | One own slot is removed while others serve |
| DeploymentMachine.Machine.Recreate | ops/deploy/docker_host.py:5804-5813 | Force-recreation in either order of stop and start: a return means the tagged image at the asked scale, and other services are unchanged |
| DeploymentMachine.Machine.Stop | ops/deploy/docker_host.py:4435-4435 | A stopped service is gone, others unchanged and users served |
| DeploymentViews.SaveView | ops/deploy/docker_host.py:594-686 | The plan in memory may be written at any point: it covers everything done so far |
| DeploymentViews.VerifiedImages | ops/deploy/docker_host.py:5888-5894 | A passed verification means the captured images and replica counts run |
| DeploymentViews.FilesPutBack | ops/deploy/docker_host.py:2595-2681 | A finished configuration step leaves every managed file as captured |
| DeploymentViews.PutBackStill | ops/deploy/docker_host.py:6050-6052 | Removing slots and temporary tags keeps everything else restored |
| DeploymentViews.FirstCapture | ops/deploy/docker_host.py:2683-2730 | The facts captured before the first save describe the untouched host |
| DeploymentViews.FirstPlan | ops/deploy/docker_host.py:2726-2730 | The first plan covers the host: nothing has changed yet |
| DeploymentViews.HydratedView | ops/deploy/docker_host.py:908-938 | A hydrated host agrees with the plan it was read from |
| DeploymentViews.CopiesPutBack | ops/deploy/docker_host.py:2595-2639 | Putting back the copies of an interrupted preparation restores every file, and the upstream exactly if its copy was whole |
| DeploymentViews.NoRoom | ops/deploy/docker_host.py:1317-1323 | At the largest scale a route that names every previous slot has no room for Gunicorn |
| DeploymentViews.PinnedStill | ops/deploy/docker_host.py:2548-2577 | Tags that leave the temporary ones alone keep every captured image addressable |
| DeploymentViews.WorkersStay | ops/deploy/docker_host.py:5745-5762 | Replacing Gunicorn leaves the verified workers alone |
| DeploymentHost.DockerHost.Hydrate | ops/deploy/docker_host.py:725-938 | Everything the plan records comes back, no restart baseline does, and the host may be rolled back from here |
| DeploymentHost.DockerHost.UpdatePlan | ops/deploy/docker_host.py:688-701 | The plan in memory reaches the disk, or the flags it would have added are remembered as lost; nothing else changes |
| DeploymentHost.DockerHost.Announce | ops/deploy/docker_host.py:3118-3119 | Flags reach the durable plan before the mutation they announce |
| DeploymentHost.DockerHost.TestAndReload | ops/deploy/docker_host.py:1378-1382 | Loaded is what it was, or the tested file; a return means the tested file |
| DeploymentHost.DockerHost.ActivateUpstream | ops/deploy/docker_host.py:1398-1453 | It raises only if a step fails or the route cannot be rendered or resolved. A return means exactly these targets are loaded and up; on failure the old route or either tested one is loaded, never an unresolvable one |
| DeploymentHost.DockerHost.ComposeUp | ops/deploy/docker_host.py:4422-4432 | It raises only if a step fails, a scale is out of bounds or a tag is missing. The named services run the tagged images at their captured scale, others are untouched, users stay served |
| DeploymentHost.DockerHost.RestoreServiceSet | ops/deploy/docker_host.py:5798-5826 | Every named service runs its tagged image at its captured scale, the beat once |
| DeploymentHost.DockerHost.RestartBeat | ops/deploy/docker_host.py:4435-4446 | The beat is stopped before it starts, with one replica, so that at no instant two schedulers run |
| DeploymentHost.DockerHost.RemoveWebSlots | ops/deploy/docker_host.py:4192-4218 | The same, and memory forgets exactly the removed names |
| DeploymentHost.DockerHost.Retag | ops/deploy/docker_host.py:2643-2680 | Every Compose reference resolves to its captured image; the shared-reference conflict cannot occur after capture |
| DeploymentHost.DockerHost.RestoreFiles | ops/deploy/docker_host.py:2608-2639 | Dockerfile, settings and managed upstream equal the backup |
| DeploymentHost.DockerHost.RestoreMarkers | ops/deploy/docker_host.py:2640-2642 | CURRENT.json, current.json and the manifest are back where their flags are raised, and untouched elsewhere |
| DeploymentHost.DockerHost.RestoreConfiguration | ops/deploy/docker_host.py:2595-2681 | All of the above, or a raise that changes nothing else and means a failed step, or statics to restore without Gunicorn |
| DeploymentHost.DockerHost.VerifyRestored | ops/deploy/docker_host.py:5888-5894 | A return means replica counts, restarts and images are the captured ones |
| DeploymentHost.DockerHost.DiscardPins | ops/deploy/docker_host.py:2579-2593 | Temporary tags go, Compose references stay |
| DeploymentHost.DockerHost.CompletePlan | ops/deploy/docker_host.py:703-722 | The plan goes only when everything it covers is back |
| DeploymentHost.DockerHost.RouteFirst | ops/deploy/docker_host.py:5918-5935 | Users are on previous slots before anything else is restored; the fallback for missing previous slots is never needed |
| DeploymentHost.DockerHost.RestoreServices | ops/deploy/docker_host.py:5942-5960 | Only a failed step keeps a service from coming back. Workers and web each come back at their captured scale on their captured references, one whether or not the other fails, while the previous slots serve |
| DeploymentHost.DockerHost.RouteBack | ops/deploy/docker_host.py:5962-5971 | The restored Gunicorn is primary with the previous slots behind it |
| DeploymentHost.DockerHost.RestoreActive | ops/deploy/docker_host.py:5937-5971 | A return means configuration, services and route are all back; unless the rollback is stuck a raise means a failed step |
| DeploymentHost.DockerHost.RestoreAll | ops/deploy/docker_host.py:5937-5999 | A return means verified images too; with the migration flag and no restart baselines it always raises |
| DeploymentHost.DockerHost.FinalRoute | ops/deploy/docker_host.py:6002-6036 | Gunicorn alone is loaded, or the previous slots are tried again |
| DeploymentHost.DockerHost.FirstRoute | ops/deploy/docker_host.py:5918-5933 | With Gunicorn running below the largest scale and restart counts at hand, the first route of a rollback can be rendered and resolved, and so can the one that leads back |
| DeploymentHost.DockerHost.Scalable | ops/deploy/docker_host.py:5942-5960 | Under the same conditions every service can be recreated at its captured scale |
| DeploymentHost.DockerHost.HealthyAgain | ops/deploy/docker_host.py:5888-5894 | Once what was replaced is recreated the restored host passes the health check: replica counts, restart counts and images of every service |
| DeploymentHost.DockerHost.Announced | ops/deploy/docker_host.py:5942-5960 | Every container this process has not announced to replace is as before the attempt |
| DeploymentHost.DockerHost.StuckBlocked | ops/deploy/docker_host.py:5918-5933 | The plan on disk and the host tell where a rollback would get stuck |
| DeploymentHost.DockerHost.FinishRoute | ops/deploy/docker_host.py:6002-6036 | A return means everything is in place and Gunicorn alone is loaded; a raise means a failed step |
| DeploymentHost.DockerHost.Clean | ops/deploy/docker_host.py:6038-6056 | Slots, temporary tags and the plan go, in this order; a raise means a failed step |
| DeploymentHost.DockerHost.LinkedReversible | ops/deploy/docker_host.py:5896-5900 | Between any two steps of an armed attempt a rollback may start |
| DeploymentHost.DockerHost.Verified | ops/deploy/docker_host.py:5888-5894 | A passed verification means the captured images run and that this process captured the baselines itself |
| DeploymentHost.DockerHost.Validate | ops/deploy/docker_host.py:2042-2117 | A passed gate means the managed upstream selects Gunicorn alone |
| DeploymentHost.DockerHost.CaptureLiveImages | ops/deploy/docker_host.py:2403-2472 | Images, replica counts and restart counts are the live ones, and services that share a reference share the image |
| DeploymentHost.DockerHost.CaptureInfrastructure | ops/deploy/docker_host.py:2474-2504 | The restart count of every infrastructure container is known, and no earlier baseline is lost |
| DeploymentHost.DockerHost.CopyConfiguration | ops/deploy/docker_host.py:2690-2718 | The copies rollback would put back equal the live files; nothing live changes |
| DeploymentHost.DockerHost.CapturePlatform | ops/deploy/docker_host.py:1175-1201 | The backup holds CURRENT.json exactly if there was one |
| DeploymentHost.DockerHost.CapturePointer | ops/deploy/docker_host.py:1235-1263 | The backup holds current.json exactly if there was one |
| DeploymentHost.DockerHost.CaptureJson | ops/deploy/docker_host.py:2719-2720 | Both markers are in the backup exactly as they are live |
| DeploymentHost.DockerHost.CaptureStatics | ops/deploy/docker_host.py:3309-3435 | The backup holds the live manifest |
| DeploymentHost.DockerHost.CaptureMarkers | ops/deploy/docker_host.py:2719-2725 | The backup is complete and equals the live state |
| DeploymentHost.DockerHost.NamePins | ops/deploy/docker_host.py:2726-2729 | No temporary tag is a Compose reference |
| DeploymentHost.DockerHost.Collect | ops/deploy/docker_host.py:2683-2729 | Every fact the plan records is captured and nothing live has changed |
| DeploymentHost.DockerHost.Arm | ops/deploy/docker_host.py:2730-2730 | From a returned save on, a kill is recovered |
| DeploymentHost.DockerHost.PinImages | ops/deploy/docker_host.py:2548-2577 | Every captured image is addressable by a temporary tag of its own; nothing but tags changes |
| DeploymentHost.DockerHost.NameSlot | ops/deploy/docker_host.py:4047-4053 | A slot name is durable before its container starts |
| DeploymentHost.DockerHost.StartWebSlots | ops/deploy/docker_host.py:4038-4074 | As many slots as Gunicorn has replicas, all on the expected image, all listed in the plan |
| DeploymentHost.DockerHost.WaitForSlots | ops/deploy/docker_host.py:4027-4036 | A return means every slot runs the expected image |
| DeploymentHost.DockerHost.StartPreviousWebSlots | ops/deploy/docker_host.py:5723-5728 | Previous slots run the captured Gunicorn image; slots already listed are not started again |
| DeploymentHost.DockerHost.VerifyPreviousFallback | ops/deploy/docker_host.py:3734-3746 | A return means previous slots exist and run the captured image |
| DeploymentHost.DockerHost.Build | ops/deploy/docker_host.py:2741-2746 | Every reference resolves to some built image; nothing but tags changes |
| DeploymentHost.DockerHost.CaptureCandidateImages | ops/deploy/docker_host.py:2506-2546 | Every reference resolves to an image other than the captured one |
| DeploymentHost.DockerHost.BuildCandidate | ops/deploy/docker_host.py:2737-2765 | The release Dockerfile is in place, every candidate image is new, and nothing live but tags changes |
| DeploymentHost.DockerHost.PrepareArmed | ops/deploy/docker_host.py:2730-2765 | The same from the first save of the plan on |
| DeploymentHost.DockerHost.PrepareCandidate | ops/deploy/docker_host.py:2683-2765 | A return means an armed plan, every captured image under a temporary tag of its own, previous slots on the captured image, the release Dockerfile and new images; a raise leaves a state that rollback accepts |
| DeploymentHost.DockerHost.SwitchRoute | ops/deploy/docker_host.py:1398-1453 | A route change between forward steps changes only routes |
| DeploymentHost.DockerHost.ProtectTraffic | ops/deploy/docker_host.py:3780-3795 | Users are on previous slots before static collection |
| DeploymentHost.DockerHost.Migrate | ops/deploy/docker_host.py:3114-3143 | The schema is migrated and statics are collected, each under its durable flag; users are on previous slots by then |
| DeploymentHost.DockerHost.MigrateTwice | ops/deploy/docker_host.py:3120-3125 | The schema is the migrated one; nothing else changes |
| DeploymentHost.DockerHost.CandidateHealth | ops/deploy/docker_host.py:4274-4305 | Candidate slots run the candidate image, and no retained container changed or restarted |
| DeploymentHost.DockerHost.SwitchTraffic | ops/deploy/docker_host.py:4307-4325 | Candidate slots are primary with previous slots and Gunicorn behind them |
| DeploymentHost.DockerHost.ReplaceWorkers | ops/deploy/docker_host.py:4403-4459 | Every service but Gunicorn runs its candidate image at its captured scale, users stay on slots |
| DeploymentHost.DockerHost.RouteAhead | ops/deploy/docker_host.py:5732-5741 | Candidate slots are primary with previous slots behind them before Gunicorn is touched |
| DeploymentHost.DockerHost.PromoteWeb | ops/deploy/docker_host.py:5730-5769 | Every service runs its candidate image at its captured scale, and Gunicorn is primary with candidate slots behind it |
| DeploymentHost.DockerHost.Finalize | ops/deploy/docker_host.py:5771-5790 | Gunicorn alone is loaded and the release marker is written under its durable flag |
| DeploymentHost.DockerHost.CleanupSuccess | ops/deploy/docker_host.py:5792-5796 | After the commit only slots and temporary tags go, with Gunicorn serving |
| DeploymentEngine.DeploymentJournal.Advance | ops/deploy/engine.py:296-331 | Only the next state of the fixed order is accepted, and the history on disk stays a prefix of it |
| DeploymentEngine.DeploymentJournal.Save | ops/deploy/engine.py:293-294 | The record in memory reaches the disk or nothing changes |
| DeploymentEngine.DeploymentJournal.Succeed | ops/deploy/engine.py:333-347 | Two writes in order: a return means committed and settled, a raise leaves an unsettled commit that rollback accepts |
| DeploymentEngine.DeploymentJournal.SucceedPreflight | ops/deploy/engine.py:390-399 | A preflight success is one write and never a committed deployment |
| DeploymentEngine.DeploymentJournal.RecordCleanup | ops/deploy/engine.py:349-354 | The committed record stays what it was |
| DeploymentEngine.DeploymentJournal.Fail | ops/deploy/engine.py:356-374 | A failed record never undoes a commit or breaks the invariant |
| DeploymentEngine.DeploymentEngine.Advance | ops/deploy/engine.py:471-517 | Journaling between two host steps keeps plan and memory in agreement |
| DeploymentEngine.DeploymentEngine.PrepareAndBackup | ops/deploy/engine.py:477-480 | After it three states are recorded and the plan is armed with no flag raised |
| DeploymentEngine.DeploymentEngine.MigrateAndCheck | ops/deploy/engine.py:482-486 | After it five states are recorded and users are on slots |
| DeploymentEngine.DeploymentEngine.Switch | ops/deploy/engine.py:488-489 | After it six states are recorded and users are on candidate slots |
| DeploymentEngine.DeploymentEngine.SwitchAndReplace | ops/deploy/engine.py:488-495 | After it eight states are recorded and every worker runs its candidate image |
| DeploymentEngine.DeploymentEngine.PromoteAndFinalize | ops/deploy/engine.py:497-501 | After it all ten states are recorded and the whole stack runs candidate images |
| DeploymentEngine.DeploymentEngine.Forward | ops/deploy/engine.py:473-517 | The protected body ends committed, or in a state from which rollback may start, and whatever ended it is counted |
| DeploymentEngine.DeploymentEngine.RollBack | ops/deploy/engine.py:518-543 | A failed run ends without a commit, or with one that is not settled, and restored unless a plan is left behind; that takes a failed step of the rollback itself, or a blocked first route |
| DeploymentEngine.DeploymentEngine.Commit | ops/deploy/engine.py:502-517 | Two commit writes, then the plan; a leftover plan is no failure |
| DeploymentEngine.FitsNow | ops/deploy/engine.py:296-331 | The invariant itself says which journal records fit the flags raised so far |
| DeploymentEngine.CommittedDeployed | ops/deploy/engine.py:506-517 | A settled commit stays deployed, with or without its plan |
| DeploymentEngine.PromotedImages | ops/deploy/engine.py:500-506 | A promoted candidate, at the captured scale, is what the commit publishes |
| DeploymentEngine.UncommittedRests | ops/deploy/engine.py:518-543 | Without plan and commit the host is restored, with no exception but a file cut short by a plain copy |
| DeploymentWitness.LoseTraffic | ops/deploy/docker_host.py:3780-3795 | From an untouched host, step by step: if the save of the traffic flag is lost and the rollback routes users to the slot, the flags on disk do not cover the route |
| DeploymentWitness.LoseWorkers | ops/deploy/docker_host.py:4419-4432 | The same with the workers flag and a recreated worker |
| DeploymentWitness.LoseGunicorn | ops/deploy/docker_host.py:5743-5755 | The same with the Gunicorn flag and a recreated Gunicorn |
| DeploymentWitness.UnsettledCommit | ops/deploy/engine.py:333-347 | A host whose journal says success while everything is as before the attempt |
| DeploymentWitness.NeverBoth | ops/deploy/engine.py:333-347 | A host is never both as before and as deployed |
| PublishMirror.Publisher.Export | ops/diagnostics/buh_diagnostics_publish.py:281-294 | The exported hours, pruning, index and state publish exactly what was planned |
| PublishMirror.Publisher.ExportHour | ops/diagnostics/buh_diagnostics_publish.py:69-123 | The hour holds exactly its rows from the cutoff on, or was cut short; other hours are untouched |
| PublishMirror.Publisher.PruneHours | ops/diagnostics/buh_diagnostics_publish.py:126-151 | No hour before the threshold remains, retained hours are untouched |
| PublishMirror.Publisher.ExportHours | ops/diagnostics/buh_diagnostics_publish.py:281-282 | Rewriting the chosen hours in order, with rows arriving meanwhile, leaves every retained hour lacking exactly the missed rows |
| PublishMirror.Publisher.PlanRebuild | ops/diagnostics/buh_diagnostics_publish.py:256-278 | A rebuild covers everything but the rows that arrived between its two reads into hours it does not export |
| PublishMirror.Publisher.PlanIncrement | ops/diagnostics/buh_diagnostics_publish.py:267-280 | An incremental run covers everything but what was missed before and lies in hours it does not export |
| PublishMirror.Publisher.RemoveEvidence | ops/diagnostics/buh_diagnostics_publish.py:260-265 | A rebuild starts from an empty mirror |
| PublishMirror.Publisher.Window | ops/diagnostics/buh_diagnostics_publish.py:270-278 | The boundary hour and every hour from the earliest to now |
| PublishMirror.Publisher.Oldest | ops/diagnostics/buh_diagnostics_publish.py:245-247 | The oldest retained stamp, or none |
| PublishMirror.Publisher.SaveIndex | ops/diagnostics/buh_diagnostics_publish.py:286-294 | The index counts the mirror, and the state names the last exported row |
| PublishMirror.Publisher.SaveState | ops/diagnostics/buh_diagnostics_publish.py:292-294 | A saved state promises what the mirror holds, and what it lacks |
| PublishMirror.Publisher.RebuildCovers | ops/diagnostics/buh_diagnostics_publish.py:260-278 | Starting empty, the hours from the oldest stamp on miss nothing but rows that arrived after that stamp was read |
| PublishMirror.Publisher.IncrementCovers | ops/diagnostics/buh_diagnostics_publish.py:267-280 | Every hour the last state does not vouch for is rewritten: boundary, recent, or inserted into since |
| PublishMirror.Publisher.NowTrusted | ops/diagnostics/buh_diagnostics_publish.py:292-294 | What a finished run promises the next one is true |
| PublishMirror.PublishedExact | ops/diagnostics/buh_diagnostics_publish.py:69-151 | Row by row: hours hold retained rows of their own hour, and a row up to the saved one is in its hour or among the missed ones |
| PublishMirror.LackingIff | ops/diagnostics/buh_diagnostics_publish.py:69-151 | A clean mirror is the rebuild exactly if it lacks no retained row |
| PublishMirror.CompletePublished | ops/diagnostics/buh_diagnostics_publish.py:281-294 | Hours that lack exactly the missed rows make a mirror that lacks exactly the missed rows |
| PublishMirror.InMirror | ops/diagnostics/buh_diagnostics_publish.py:281-294 | What is in the table and retained is mirrored or known to be missed |
| PublishMirror.StillHere | ops/diagnostics/buh_diagnostics_publish.py:211-219 | Nothing that came in and is retained leaves the table, unless the store is replaced |
| PublishMirror.Happen | ops/diagnostics/buh_diagnostics_publish.py:222-294 | One event, with everything a finished run among them has published |
| PublishMirror.RebuildComplete | ops/diagnostics/buh_diagnostics_publish.py:256-282 | A rebuild of the whole table lacks nothing |
| PublishMirror.RebuildMirrors | ops/diagnostics/buh_diagnostics_publish.py:69-123 | A rebuild holds every retained hour exactly |
| PublishMirror.IsRebuild | ops/diagnostics/buh_diagnostics_publish.py:260-282 | A mirror that agrees hour by hour is the rebuild |
| PublishMirror.InsertUpTo | ops/diagnostics/buh_diagnostics_publish.py:211-219 | A later insert changes nothing of what an hour holds up to the saved row |
| PublishMirror.Publisher.Insert | ops/diagnostics/buh_host_diagnostics.py:272-289 | A new row gets an id no row had before; every promise of the last state survives |
| PublishMirror.Publisher.PruneHistory | ops/diagnostics/buh_host_diagnostics.py:703-706 | Deleting below the retention limit breaks no promise of the last state |
| ShardPacking.StaysAhead | ops/diagnostics/buh_diagnostics_publish.py:93-101 | No split of one line more is shorter than the greedy one, nor as short with more room left |
| ShardPacking.Placed | ops/diagnostics/buh_diagnostics_publish.py:93-101 | One more line keeps the packing correct and optimal |
| ShardPacking.PackedBest | ops/diagnostics/buh_diagnostics_publish.py:93-101 | No order-preserving split within the limit uses fewer parts |
| ShardPacking.Shorten | ops/diagnostics/buh_diagnostics_publish.py:93-101 | Taking the last line out of a split leaves a split of the rest |
| ShardPacking.CountIsSize | ops/diagnostics/buh_diagnostics_publish.py:101-106 | Counting one by one gives the number of entries, and of errors, of a service |
| ShardPacking.Counted | ops/diagnostics/buh_diagnostics_publish.py:101-106 | The counters count each service and its errors |
| LogCollection.DeliveredSafe | ops/diagnostics/buh_host_diagnostics.py:272-289 | Whatever a run delivered was cut, redacted or left out first, as the message asked for |
| LogCollection.GapsMean | ops/diagnostics/buh_host_diagnostics.py:272-289 | What a read puts on record: unparsed lines, cut or omitted messages, a failed read, and nothing else |
| LogCollection.HistoryFaithful | ops/diagnostics/buh_host_diagnostics.py:429-454 | If Docker keeps its promise of every answer, the reads that start at the cursors deliver their intervals |
| LogCollection.AnswerFaithful | ops/diagnostics/buh_host_diagnostics.py:435-447 | The same of one run |
| LogCollection.Commit | ops/diagnostics/buh_host_diagnostics.py:709-740 | One committed run more: rows, gaps, cursors and inventory are those of the longer history |
| LogCollection.CursorSince | ops/diagnostics/buh_host_diagnostics.py:435-435 | The cursors in the store are where the history says the next reads begin |
| LogCollection.FailureReported | ops/diagnostics/buh_host_diagnostics.py:449-450 | A read that failed stays on record as long as its lines would |
| LogCollection.RowsFromUnique | ops/diagnostics/buh_host_diagnostics.py:703-704 | Deleting old rows keeps fingerprints unique and ids rising |
| LogCollection.Collector.Collect | ops/diagnostics/buh_host_diagnostics.py:709-740 | A run that commits changes rows, gaps and cursors together; one that does not changes nothing |
| LogCollection.Collector.Transact | ops/diagnostics/buh_host_diagnostics.py:721-739 | One run as a transaction on the store |
| LogCollection.Collector.CollectDocker | ops/diagnostics/buh_host_diagnostics.py:429-454 | The rows and gaps of every container, the gaps of containers that are gone, and cursors moved by complete reads alone |
| LogCollection.Collector.CollectContainer | ops/diagnostics/buh_host_diagnostics.py:431-450 | The read starts at the stored cursor; every delivered line is stored or reported, and the cursor moves only after a complete read |
| LogCollection.Collector.CollectLine | ops/diagnostics/buh_host_diagnostics.py:441-446 | A stamped line is stored, a blank one skipped, any other reported |
| LogCollection.Collector.InsertLog | ops/diagnostics/buh_host_diagnostics.py:272-289 | The stored text, by cases: cut if oversized, then redacted, and the marker in its place if it still looks like a credential. A fingerprint that is there is left alone, a new one is appended with the next id; truncation and omitted credentials are reported |
| LogCollection.Collector.ReportGone | ops/diagnostics/buh_host_diagnostics.py:451-453 | One gap for each container that is gone |
| LogCollection.Collector.PruneHistory | ops/diagnostics/buh_host_diagnostics.py:703-706 | Exactly the rows and gaps below the retention limit go |
| ReceiverUpgrade.SameTargets | ops/deploy/receiver_upgrade.py:580-594 | Equal listings of all eight targets are equal targets, in presence and content |
| ReceiverUpgrade.TargetsDisjoint | ops/deploy/receiver_upgrade.py:34-44 | No target lies in another |
| ReceiverUpgrade.SiblingsApart | ops/deploy/receiver_upgrade.py:850-871 | No temporary sibling of a target lies in or above any target |
| ReceiverUpgrade.WriteTarget | ops/deploy/receiver_upgrade.py:850-871 | Writing at a target leaves every other target, its siblings and everything else as they were |
| ReceiverUpgrade.WriteSibling | ops/deploy/receiver_upgrade.py:790-813 | Writing at a temporary sibling leaves every target and everything else as they were |
| ReceiverUpgrade.Exchanged | ops/deploy/receiver_upgrade.py:816-871 | An exchange swaps a target with its sibling and changes nothing else |
| ReceiverUpgrade.NoTrace | ops/deploy/receiver_upgrade.py:1237-1239 | Scratch paths that were not there before and are gone afterwards leave no trace |
| ReceiverUpgrade.StillUntouched | ops/deploy/receiver_upgrade.py:1165-1240 | A step that changes nothing but targets and siblings keeps everything else as it was at the beginning |
| ReceiverUpgrade.Upgrade.Write | ops/deploy/receiver_upgrade.py:874-892 | An atomic write happened before the failure or not at all |
| ReceiverUpgrade.Upgrade.Record | ops/deploy/receiver_upgrade.py:1048-1081 | A failed final record is replaced by a recovery requirement where that can be written: which record stands after each failure |
| ReceiverUpgrade.Upgrade.CopyTree | ops/deploy/receiver_upgrade.py:1098-1109 | A copy that lists like its source is its source |
| ReceiverUpgrade.Upgrade.CopyTarget | ops/deploy/receiver_upgrade.py:1098-1110 | The copy and the listing of one target are appended to the backup, or nothing is |
| ReceiverUpgrade.Upgrade.Create | ops/deploy/receiver_upgrade.py:1094-1129 | A return means the backup equals the live targets; nothing live changes |
| ReceiverUpgrade.Upgrade.Matches | ops/deploy/receiver_upgrade.py:1149-1163 | The comparison passes exactly if the targets equal the snapshot |
| ReceiverUpgrade.Upgrade.WriteBeside | ops/deploy/receiver_upgrade.py:790-813 | A temporary sibling is written; no target changes |
| ReceiverUpgrade.Upgrade.CopyBeside | ops/deploy/receiver_upgrade.py:790-806 | A return means the sibling holds the source and was absent before; no target changes |
| ReceiverUpgrade.Upgrade.Promote | ops/deploy/receiver_upgrade.py:850-871 | The target becomes what stood at the sibling in one step, and no other target changes |
| ReceiverUpgrade.Upgrade.Discard | ops/deploy/receiver_upgrade.py:809-813 | A return means the sibling is gone; no target changes |
| ReceiverUpgrade.Upgrade.Replace | ops/deploy/receiver_upgrade.py:1178-1194 | A return means this target is the source, and nothing else on the disk differs |
| ReceiverUpgrade.Upgrade.Retire | ops/deploy/receiver_upgrade.py:1169-1177 | A return means this target is absent, and nothing else on the disk differs |
| ReceiverUpgrade.Upgrade.ActivateOne | ops/deploy/receiver_upgrade.py:1219-1236 | One target is the staged one, its candidate still beside it; before the promotion nothing live has changed |
| ReceiverUpgrade.Upgrade.PromoteAll | ops/deploy/receiver_upgrade.py:1218-1236 | Done means every target is the staged one, with only the candidates beside them |
| ReceiverUpgrade.Upgrade.DiscardAll | ops/deploy/receiver_upgrade.py:1237-1239 | Done means no candidate is left; no target changes |
| ReceiverUpgrade.Upgrade.Activate | ops/deploy/receiver_upgrade.py:1206-1240 | A return means every target is the staged one and nothing outside them differs; without a promotion nothing live has changed |
| ReceiverUpgrade.Upgrade.Install | ops/deploy/receiver_upgrade.py:1506-1642 | Done means staged and recorded; a failure after the first promotion leaves a recovery requirement, unless completion is on record |
| ReceiverUpgrade.Upgrade.Recover | ops/deploy/receiver_upgrade.py:1685-1812 | Refused unless required; a return means the snapshot is back and recorded; a raise keeps the requirement and means a failed step, if recovery was required and the parents exist |
| FileTree.Scan | ops/deploy/receiver_upgrade.py:580-594 | The walk loop gives the listing of the tree, directories before files, top down |
| FileTree.ListDirectory | ops/deploy/receiver_upgrade.py:587-593 | One round lists the sorted directories, then the sorted files |
| FileTree.WalkLists | ops/deploy/receiver_upgrade.py:580-594 | An entry is listed exactly if it describes a node below the root |
| FileTree.AlikeEqual | ops/deploy/receiver_upgrade.py:558-577 | Well-formed trees that answer every lookup alike are equal |
| DiagnosticsInstall.Run | ops/diagnostics/buh_diagnostics_install.py:272-370 | One command, killed at any instant or run to its end, extends the history |
| DiagnosticsInstall.VisitedMore | ops/diagnostics/buh_diagnostics_install.py:272-370 | One more visit extends the list of visits |
| DiagnosticsInstall.HistoryGoesOn | ops/diagnostics/buh_diagnostics_install.py:342-365 | One more safe instant, of the transaction under way or of one that begins with the present disk, extends a history |
| DiagnosticsInstall.Installer.Recover | ops/diagnostics/buh_diagnostics_install.py:272-310 | A return means symlink, receipt, units and timers are exactly as before the marker; a previous current that is no release link is refused without a change; otherwise a raise means a failed step |
| DiagnosticsInstall.Installer.Switch | ops/diagnostics/buh_diagnostics_install.py:343-367 | The protected body ends exactly installed, or raises after a failed step, under a marker that still covers everything |
| DiagnosticsInstall.Installer.Mark | ops/diagnostics/buh_diagnostics_install.py:329-342 | The marker records the state before, before anything is switched |
| DiagnosticsInstall.Installer.Stage | ops/diagnostics/buh_diagnostics_install.py:235-269 | A release appears whole or not at all |
| DiagnosticsInstall.Installer.MissingUnits | ops/diagnostics/buh_diagnostics_install.py:332-332 | Exactly the units that do not exist yet |
| DiagnosticsInstall.Installer.SwitchCurrent | ops/diagnostics/buh_diagnostics_install.py:224-232 | The link is old or new, never absent in between |
| DiagnosticsInstall.Installer.DisableAll | ops/diagnostics/buh_diagnostics_install.py:293-294 | No timer is enabled afterwards |
| DiagnosticsInstall.Installer.UnlinkNew | ops/diagnostics/buh_diagnostics_install.py:298-299 | Exactly the units from before remain |
| DiagnosticsInstall.Installer.EnableSet | ops/diagnostics/buh_diagnostics_install.py:301-302 | Exactly the previously enabled timers are enabled |
| DiagnosticsInstall.Installer.UnlinkMarker | ops/diagnostics/buh_diagnostics_install.py:308-309 | The marker goes only where the host is as before or exactly installed |
| DiagnosticsInstall.Installer.AllSwitched | ops/diagnostics/buh_diagnostics_install.py:344-364 | The steps of an installation add up to it |
| Nginx.Tokenize | ops/deploy/docker_host.py:273-323 | The loop over characters computes the tokens, or rejects an unfinished quote or escape |
| Nginx.ParseScope | ops/deploy/docker_host.py:333-363 | The recursive scope reader returns the nodes and the next index of the specification |
| Nginx.ParseConfiguration | ops/deploy/docker_host.py:326-366 | Tokenizing, then reading the outer scope |
| Nginx.NestedBalance | ops/deploy/docker_host.py:338-359 | A nested scope consumes exactly one level of balance |
| Nginx.ParsePrint | ops/deploy/docker_host.py:326-366 | Parsing undoes printing for every tree of plain words |
| Nginx.ParsedPlain | ops/deploy/docker_host.py:273-366 | Whatever is parsed consists of plain words |
| Nginx.TrailingWords | ops/deploy/docker_host.py:357-363 | Words after the last directive change nothing |
| Nginx.QuotedBrace | ops/deploy/docker_host.py:299-318 | A quoted brace is the same token as a bare one: a concrete input |
| Nginx.LexNodes | ops/deploy/docker_host.py:273-323 | The printed form of a tree has exactly its tokens |
| Nginx.ScopeNodes | ops/deploy/docker_host.py:338-357 | The tokens of a tree are read back as that tree |
| Nginx.ScopeTrailing | ops/deploy/docker_host.py:357-363 | Trailing words leave the parsed nodes as they were |
| Nginx.Servers | ops/deploy/docker_host.py:1337-1346 | One server directive per name, in order, word by word, marked exactly on the backups |
| Nginx.LexServers | ops/deploy/docker_host.py:1337-1346 | The server lines have exactly the tokens of these directives |
| LogLines.SplitCuts | ops/deploy/docker_host.py:4790-4791 | The pieces joined by one newline each are the text, and no piece holds a newline |
| LogLines.CutUnique | ops/deploy/docker_host.py:4790-4791 | There is only one such cut |
| LogLines.StripTrims | ops/deploy/docker_host.py:4795-4795 | Stripping removes exactly the carriage returns at the end |
| LogLines.DeliverAll | ops/deploy/docker_host.py:4792-4795 | Pieces are delivered in order until one is oversized |
| LogLines.SplitAppend | ops/deploy/docker_host.py:4790-4791 | A split may be carried across a cut: only the last piece is open |
| LogLines.Overflow | ops/deploy/docker_host.py:4796-4797 | An oversized piece stays oversized whatever follows |
| LogLines.NextChunk | ops/deploy/docker_host.py:4790-4797 | What one more chunk adds to the split of the whole |
| LogLines.Delivered | ops/deploy/docker_host.py:4792-4795 | What was delivered is a prefix of the final lines |
| LogBatches.GroupsCut | ops/deploy/docker_host.py:4891-4907 | The records are the lines cut exactly before each header |
| LogBatches.RecordsWhole | ops/deploy/docker_host.py:4877-4956 | Each record in one piece: an owner record in the incident of its second, any other among the ordinary lines |
| LogBatches.IncidentsConserve | ops/deploy/docker_host.py:4938-4961 | The batches of owner records hold exactly the lines of the spool |
| LogBatches.AllSpooled | ops/deploy/docker_host.py:4938-4956 | Gathering the records second by second loses and repeats nothing |
| LogBatches.AllSnoc | ops/deploy/docker_host.py:4938-4956 | One record more comes up in exactly one second |
| LogBatches.StreamFits | ops/deploy/docker_host.py:4792-4797 | What a stream delivers is within the line limit of the batches |
| LogBatches.Collect | ops/deploy/docker_host.py:4891-4936 | The first pass raises exactly for an owner record beyond the limits; otherwise ordinary batches concatenate to the ordinary lines and the spool holds every owner record whole |
| LogBatches.Incidents | ops/deploy/docker_host.py:4938-4956 | The second pass raises exactly for an overfull second; otherwise one batch per second, in ascending order |
| LogBatches.FinishRecord | ops/deploy/docker_host.py:4877-4889 | A finished record goes to the spool or to the ordinary lines, whole |
| LogBatches.Conserved | ops/deploy/docker_host.py:4847-4961 | Every line is an ordinary line or in the spool, once |
| LogBatches.OrderedKeeps | ops/deploy/docker_host.py:4941-4943 | Sorting keeps the records of each second together and in order |
| LogBatches.OversizedOwner | ops/deploy/docker_host.py:4915-4928 | An owner line on a record beyond the limits makes the scan unsafe |
| Png.VerifyPng | ops/readiness.py:937-997 | Acceptance exactly of the signature followed by the encoding of a legal chunk list; every input terminates |
| Png.AcceptsEncoded | ops/readiness.py:948-997 | Every legal chunk list is accepted once encoded |
| Png.AcceptedChunks | ops/readiness.py:948-997 | Accepted bytes are the encoding of a legal chunk list |
| Png.HeadEncoded | ops/readiness.py:951-963 | Reading the head of an encoding gives the chunk back |
| Png.EncodedHead | ops/readiness.py:951-963 | A head that checks out is the encoding of its chunk |
| Png.LegalIsLegal | ops/readiness.py:964-997 | Legality step by step is legality of the list as a whole |
| Png.LegalLater | ops/readiness.py:964-997 | The same after the first chunk |
| RequirementIncludes.Reader.ReadLines | ops/supply_chain.py:87-107 | The loop over one file |
| RequirementIncludes.Sound | ops/supply_chain.py:80-108 | Success means a finite unfolding and exactly its pins |
| RequirementIncludes.Complete | ops/supply_chain.py:80-108 | A finite unfolding with distinct names always succeeds |
| RequirementIncludes.NoCycle | ops/supply_chain.py:83-86 | After success no chain of includes comes back to a file it has passed |
| RequirementIncludes.UnfoldingUnique | ops/supply_chain.py:80-108 | Lines unfold in at most one way |
| RequirementIncludes.AddsUnique | ops/supply_chain.py:92-106 | Added pins determine the result |
| RequirementIncludes.AddsNested | ops/supply_chain.py:91-98 | Pins of an include are added without overlap |
| ReviewEvidence.Evidence | ops/readiness.py:1085-1288 | Refused exactly for repeated identities; otherwise the snapshot means what the reviews say, without reference to their order |
| ReviewEvidence.Read | ops/readiness.py:1085-1128 | The first loop: per author the largest review, the largest actionable one, and all reviews |
| ReviewEvidence.Fold | ops/readiness.py:1132-1136 | The second loop: per author the newest unresolved serious review |
| ReviewEvidence.Sorted | ops/readiness.py:1265-1288 | The reviews of a table in canonical order |
| ReviewEvidence.SnapshotUnique | ops/readiness.py:1265-1288 | The same reviews have one snapshot |
| ReviewEvidence.OrderIndependent | ops/readiness.py:1085-1136 | Any permutation of the reviews gives the same snapshot |
| ReviewEvidence.NormalizeReviews | ops/readiness.py:141-192 | Accepts exactly lists with allowed states, unique authors and identities, in canonical order |
| ReviewEvidence.Validate | ops/readiness.py:194-318 | Malformed exactly for a bad shape, accepted exactly for a clean snapshot |
| ReviewEvidence.LargestUnique | ops/readiness.py:1123-1128 | The largest reviews per author are unique |
| ReviewEvidence.CanonicalUnique | ops/readiness.py:1265-1288 | Canonical lists of the same reviews are equal |
| ReviewEvidence.ByAgeKeeps | ops/readiness.py:1132-1132 | Sorting by identity loses nothing |
| ReviewEvidence.NextReview | ops/readiness.py:1133-1136 | One more review in order of identity: an approval clears, a serious one replaces |
| ReviewDiscussion.KeptMeans | ops/readiness.py:1138-1183 | The comments that count are those of the posts that are not the pointer, with distinct identities exactly if those posts have |
| ReviewDiscussion.NothingOpenMeans | ops/readiness.py:309-324 | Nothing is open, in terms of reviews, threads and comments themselves |
| ReviewDiscussion.GatherEvidence | ops/readiness.py:1082-1298 | Succeeds exactly for unique review and issue-comment identities and complete threads that end within a hundred pages; then everything is sorted, folded and sealed with its digest |
| ReviewDiscussion.ReadPages | ops/readiness.py:1206-1298 | Ends after at most a hundred pages, whatever the cursors and however repeated cursors are answered, with the threads of all of them |
| ReviewDiscussion.ThreadsArePages | ops/readiness.py:1206-1298 | The threads are read exactly if at most a hundred linked pages deliver them, and are then those of the pages in order |
| ReviewDiscussion.ReadThreads | ops/readiness.py:1220-1262 | Raises exactly for a thread without comments or with more than one page of them; otherwise threads and comments are sorted |
| ReviewDiscussion.ReadIssues | ops/readiness.py:1138-1183 | Raises exactly for a repeated identity; the bot's own pointer is skipped |
| ReviewDiscussion.ValidateEvidence | ops/readiness.py:126-327 | Malformed exactly for a bad shape or a digest that is not the snapshot's, and otherwise accepted exactly when nothing is open |
| ReviewDiscussion.ValidateThreads | ops/readiness.py:210-256 | Accepts exactly unique identities in canonical order with comments in every thread |
| ReviewDiscussion.RefusedForFindings | ops/readiness.py:210-326 | Gathered evidence has a bad shape exactly if a thread or comment identity was delivered twice, and is otherwise refused exactly for open findings of the pull request |
| ReviewDiscussion.CommentsOrderFree | ops/readiness.py:1256-1262 | Any order of comments gives the same thread |
| ReviewDiscussion.ThreadsRefused | ops/readiness.py:210-256 | Threads that were read are malformed exactly if some identity was delivered twice |
| ReviewDiscussion.SameFindings | ops/readiness.py:319-324 | Sorting neither hides nor invents a finding |
| Sorting.SortedOrderFree | ops/readiness.py:1289-1292 | Sorting by unique identity forgets the order of delivery |
| Sorting.SortedKeeps | ops/readiness.py:1289-1292 | Sorting keeps every element and gives ascending identities |
| RecoveredLogs.Records | ops/deploy/recovered_logs.py:121-129 | The lines in order, cut exactly before the headers, no record empty |
| RecoveredLogs.PartitionUnique | ops/deploy/recovered_logs.py:121-129 | There is only one such cut |
| RecoveredLogs.RecoveredLogReview.Classify | ops/deploy/recovered_logs.py:246-359 | An accepted record meets the conditions of its kind: an end before the review began for all but identity metadata, and a later success of the task or character for task and asset errors; accepted asset task errors stay within the 404 records, and one is refused only without credit |
| RecoveredLogs.RecoveredLogReview.ClassifyWebDebug | ops/deploy/recovered_logs.py:214-244 | Accepts only the two DEBUG shapes, and only if they ended before the review began |
| RecoveredLogs.RecoveredLogReview.Open | ops/deploy/recovered_logs.py:319-326 | A 404 record adds its character to the incident of its second, or replaces the incident of another |
| RecoveredLogs.RecoveredLogReview.Retain | ops/deploy/recovered_logs.py:185-199 | Each group counts, bounds and digests exactly the retained records of its kind and source |
| RecoveredLogs.RecoveredLogReview.ReviewRecord | ops/deploy/recovered_logs.py:465-483 | A record is classified and, if accepted, retained; otherwise nothing changes |
| RecoveredLogs.Spend | ops/deploy/recovered_logs.py:291-299 | Accepting a task error spends one credit of the open incident |
| RecoveredLogs.Earn | ops/deploy/recovered_logs.py:319-327 | A 404 record earns at most one credit, also when it replaces an incident |
| RecoveredLogs.Neutral | ops/deploy/recovered_logs.py:246-359 | Every other kind leaves the accounts alone |
| RecoveredLogs.Oldest | ops/deploy/recovered_logs.py:172-172 | The oldest asset run: every character finished at or after it |

## Left out

- DeploymentHost.DockerHost.Rollback: the database schema is not restored, as in the source; the staged release directory, also never removed there, is not part of the state.
- DeploymentHost.DockerHost.Migrate: setup commands and the shared-asset comparison are probes that succeed or fail.
- DeploymentHost.DockerHost.CaptureLiveImages: the replicas of a service are one group with one image and one restart count, so differences between replicas are not modelled.
- DeploymentReceiver.Recover: completing after a migration is impossible in the source, so for those plans only safety is claimed.
- DeploymentReceiver.Receive: reading, unpacking and validating the archive is one step that succeeds or fails; the lock is assumed.
- PublishMirror.Publisher.Publish: of rows that arrive after the saved row was read a run promises nothing; the next one mirrors them.
- PublishMirror.Publisher.SaveIndex: `evidence-index.json` is the record count of every hour; its first and last stamps, its services, per-day `index.json` files, the pushed Git snapshot and the report are not modelled.
- LogCollection.Collector.CollectContainer: the `journal` and `docker-event` sources, resource samples, the byte count behind truncation and the error key of a row are left out; `at` is in whole microseconds, and a gap is stamped with the end of its run.
- LogCollection.Collector.Collect: an exception after the containers were read, other than one that loses the whole transaction, is left out.
- FileTree.Scan: symbolic links and special files are not modelled; names are ordered as strings.
- ReceiverUpgrade.Upgrade.Promote: the two-rename fallback used only off Linux is left out.
- ReceiverUpgrade.Lifetime: the backup and the staging directory have one slot per target and are not part of the file system tree; the nested preflight and the checks of inputs and ownership are steps that succeed or fail, and a name that is taken counts as a failed copy.
- DiagnosticsInstall.Installer.Switch: stopping and starting services and `daemon-reload` are steps that succeed or fail, and the receipt is its digest and date; manifest checks come before the model.
- LogBatches.Batches: the deadline, the temporary database and the regular expressions are left out; which lines are headers or hits is a parameter.
- LogLines.StreamLines: threads, timeouts, the exit status and UTF-8 decoding are left out; a character stands for a byte.
- Png.VerifyPng: the checksum is a parameter, and the further dimension rule that depends on the file's path is left out.
- RequirementIncludes.Reader.ExactInputs: path resolution, line syntax and name canonicalisation happen before the model.
- ReviewEvidence.Evidence: submission times and commits are carried along by the source and left out here; a case-folded login is a number, and states are assumed known.
- ReviewDiscussion.GatherEvidence: items whose metadata is malformed (types, lengths, control characters, commit hashes) are refused by the source and are not part of the inputs here; the digest is a function of the evidence.
- RecoveredLogs.RecoveredLogReview.Classify: what the regular expressions and literal parsers find in a record is a parameter.
- RecoveredLogs.RecoveredLogReview.Retain: the digest is the list of retained records, and the sorted rows of `summary` are the groups themselves.
- Configuration, manifest and request schemas, ownership and mode checks, confirmation strings: guards without interesting state.
- Worker recovery, one-time repairs, history maintenance, Discord rotation, reports and command lines: incident-specific or flat.
- Liveness: that the health checks of a candidate ever pass, and how long stabilisation takes.
