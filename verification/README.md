# A verified model of the RDS broker

The broker provisions databases for Cloud Foundry, on shared servers, on RDS instances of their own or on
Aurora clusters, and hands out database users for bindings. It keeps its own records in a small relational
database and acts on two other stores that fail independently of it: AWS and the SQL servers. This project
models the three stores, the six handlers that work on them and the code they rest on, and proves what
holds of them over whole runs, with every external call going well or badly in any pattern.

Each call of a handler comes with a value that says how every external call behind it goes (`ProvisionCalls`,
`BindCalls` and so on), so a statement for all such values is a statement for all patterns of failure. A
failed call leaves its store alone. Random bytes are part of these values too.

## Files

- `Utils`, `Strings`, `Names`, `Catalog`: sealing, base64url, random names, identifiers, plans.
- `PostgresText`: what the Postgres engine prints, and a reader for it that follows the rules of libpq
  ("Keyword/Value Connection Strings") and of section 4.1.2.1 of the PostgreSQL manual.
- `Extensions`: `SetExtensions` as a class over a database, with the plan of statements it stands for.
- `AwsRds`, `AwsVersions`: storage and versions in `Modify`.
- `Models`, `Records`, `KeyRotation`: the tables, `DBInstance` with its in-memory users, the cascades, key
  rotation.
- `SqlServers`: roles and grants of a Postgres and of a MySQL server.
- `Broker`, `RDSBroker`: the handlers, as functions on the three stores and as methods of a class that
  changes them; each method is proved to do what its function says.
- `Answers`, `BindingAnswers`, `InstanceAnswers`, `UpdateAnswers`: when exactly each handler succeeds, which error
  it gives otherwise, and what its answer means.
- `RunRecords`, `RunReferences`, `RunClusters`, `ClusterOrphans`: safety over whole runs, whatever fails.
- `Race`: concurrent calls of `Provision`.
- `RefCount`, `RefCountProvision`, `RefCountBind`, `RefCountUnbind`, `RefCountDelete`, `RefCountRuns`: reference
  counting of users over whole runs.
- `Leftovers`: what a completed `Deprovision` leaves for the next instance with the same ID.
- `RoleCollisions`: what happens to instance IDs that share a Postgres role name.
- `ProvisionFailures`, `Failures`, `DeletionFailures`: exactly which failed call breaks what; `Witnesses`
  and `DeletionWitnesses`: short runs in which it happens.

## What is false, and what holds instead

Some things one would like to say of the broker are not true of the code. For each the model has the exact
condition, told from the state, the request and the calls that go through, and a run or an input at which it
fails wherever that is not plain from the condition. "In step" is the property of `UsersStayInStep`. It
holds after every run that is careful at each step, over instance IDs with different Postgres role names and with
fresh random names; the invariant behind it is `Counted`, and exactly which steps keep it, over all handlers and
all patterns of failures, is `NextCountedIff`. The conditions below for a single step start from any state that
satisfies the invariant. Those with `InStep` in their name speak of the state right after the call, those with
`Counted` in their name of whether the invariant holds again, so that later careful steps stay in step too. For
`Bind` and `Unbind` the two are the same.

- `Bind` saves the binding before it runs its two SQL statements. The state after it is in step if and only if
  it does not get as far as storing a new user (`AddsUser`: everything before is found and made, no user has the
  name, and the save goes through), or both statements go through (`BindInStepIff`). After the other case a
  second `Bind` on Postgres in which everything succeeds answers with credentials that do not work
  (`RebindIsDead`); a run of three requests in which this happens is `FailedBindHappens`.
- `Unbind` deletes the binding before it revokes and drops. The state after it is in step if and only if it does
  not take the last binding of a user on an existing server, or every later call goes through
  (`UnbindInStepIff`); `FailedUnbindHappens` is such a run.
- `Provision` passes its check when the look-up fails. The state right after it is in step unless that happens
  over a record with a standard user whose server is gone, and the call builds that server again, and only then
  is it not (`ProvisionInStepIff`); `RebuiltHappens` is such a run. It keeps the invariant unless the server is
  built again under a record with standard users or without the database of the record (`ProvisionCountedIff`).
- `Deprovision` and `LastOperation` can stop in the middle of deleting the rows. When exactly the state right
  after them is in step is `DeprovisionInStepIff` and `LastOperationInStepIff`, and runs after which it is not are
  `HalfDeprovisionHappens` and `LastRowStaysHappens`. When exactly they keep the invariant is
  `DeprovisionCountedIff` and `LastOperationCountedIff`. The difference matters: a `Deprovision` that drops the
  database and stops right before the row of the instance is in step, and the next `Bind`, in which every call
  goes through, is not (`LostDatabaseHappens`).
- `Deprovision` logs the drop of a user that fails and moves on. On Postgres that does no harm, because the grants
  go with the database. MySQL keeps them, and when the same ID is provisioned again the old account can use the
  new database (`LeftoverHappens`). After a `Deprovision` that dropped the database and deleted all rows, an
  instance with the same ID is in step if and only if the drop of no standard user of a MySQL instance failed, or
  the new instance is not stored on the shared MySQL server (`ReprovisionInStepIff`).
- Instance IDs whose Postgres role names are the same, such as `x-1` and `x_1`, share a role, and the second
  `Bind` gives it a new password. For a broker that offers a bindable plan on the shared Postgres server, every
  careful run over a set of IDs stays in step if and only if no two of them share a role name
  (`RoleCollisions.InStepIff`; the failing run, in which every call succeeds, is `Collides`).
- A `Provision` that builds the RDS instance and does not record it leaves it behind: when the save fails, and
  when an older record of the ID, which a failed look-up has hidden, stops the save. `InstanceLeftIff` has the
  exact conditions, also for an instance left without any record of its ID; `FailedSaveHappens` is such a run.
  The same request then fails for as long as that instance exists (`UnrecordedBlocks`).
- An Aurora cluster can be forgotten when two instance IDs differ only in `-` and `_`, and over a given set of
  IDs it can happen if and only if two of them do (`CompensatedIff`; the run is `Orphaned`).
- A shared plan that passes validation finds its engine if and only if the engine is written in lower case
  (`SharedEngineFoundIff`; `CapitalEngineIsLost` is a plan for which it is not).
- `SetExtensions` never looks at `rows.Err()`. Success means that exactly the requested extensions are
  installed if and only if the listing it worked from was complete (`TargetReachedIff`); in
  `TruncatedListingHappens` it was not.
- `DBInstance.Bind` puts a new user into the copy in memory before it gives that user the requested name. The
  copy shows the requested name afterwards if and only if it did before or the random name is the same
  (`CopyShowsNameIff`).
- Storage follows the greatest size that RDS accepted if and only if no modification undercuts one that is still
  pending (`MaximumIff`); `PendingSizeIsLost` is a pair of modifications that do.
- The version that an instance has or is about to get is the last that RDS accepted if and only if no modification
  asks for the current version while another is pending (`LastVersionIff`): an upgrade that waits for its window is
  not called off that way (`UpgradeIsNotCalledOff`).
- Versions are compared as strings, so the step from 9.6 to 10.1 is not seen as a major one
  (`NineToTenIsMissed`); when the comparison is right is `AllowMajorVersionUpgradeIff`.

Two more places where the code and the text around it part, both modelled as the code has them: the
repository's README documents a `username` bind parameter, which `Bind` never reads; and `FindInstance` takes
any failed query for a missing instance, which is why `Provision` rests on the unique index and not on its
check.

## Model

| member | source | states |
|---|---|---|
| RDSBroker.RDSBroker.Provision | rdsbroker/broker.go:104-171 | the handler, with its early returns, its calls in order and the deferred deletion of the cluster, changes the three stores and answers exactly as the staged specification that the run theorems and the race use |
| RDSBroker.RDSBroker.Update | rdsbroker/broker.go:173-245 | the handler against its specification: extensions before the RDS calls, and never a write to the record |
| RDSBroker.RDSBroker.Deprovision | rdsbroker/broker.go:247-306 | the handler against its specification: database, users and rows for a shared instance; only the start of the deletion, and the record kept, for one of its own |
| RDSBroker.RDSBroker.DropUsers | rdsbroker/broker.go:276-282 | the loop over the users drops each in turn and passes over those that fail |
| RDSBroker.RDSBroker.Bind | rdsbroker/broker.go:308-378 | the handler against its specification, including the order save, create, grant |
| RDSBroker.RDSBroker.Unbind | rdsbroker/broker.go:380-424 | the handler against its specification, including the order delete binding, revoke, drop, delete user |
| RDSBroker.RDSBroker.LastOperation | rdsbroker/broker.go:426-469 | the handler against its specification: the record goes only when RDS says that the instance does not exist |
| Broker.FindObjects | rdsbroker/broker_helpers.go:10-30 | succeeds exactly when the query goes through and the instance, its service and its plan are there, and gives what is recorded; otherwise the first of the three that is missing decides the error, and a failed query looks like a missing instance |
| Broker.OpenEngine | rdsbroker/broker.go:518-546 | an engine is opened exactly when the plan has one and, for an instance of its own, the server exists, the calls go through and the master's password opens; it is of the kind of the plan |
| Answers.LookUpFailsIff | rdsbroker/broker_helpers.go:10-30 | which error the look-up gives, exactly; a failed query gives that of a missing instance |
| Answers.ConnectFailsIff | rdsbroker/broker.go:479-546 | which error the connection to the engine gives, exactly; the error of a missing RDS instance is translated and that of a missing cluster is not |
| Answers.EnginesInAnyCase | sqlengine/provider_service.go:18-27 | the case of an engine's name does not matter, and Aurora is used with the MySQL engine |
| InstanceAnswers.ProvisionAnswersIff | rdsbroker/broker.go:104-171 | `Provision` succeeds exactly when the request is taken up, no record is there, a master user can be made, what the plan needs is created, and the save goes through; the answer is asynchronous exactly for a plan that is not shared |
| InstanceAnswers.ProvisionFailsIff | rdsbroker/broker.go:104-171 | which error it gives otherwise, exactly |
| InstanceAnswers.ProvisionedMeans | rdsbroker/broker.go:140-170 | from any state, success stores the record with a master user whose password opens, and builds what the plan needs and nothing else |
| UpdateAnswers.UpdateAnswersIff | rdsbroker/broker.go:173-245 | `Update` succeeds exactly when the change is let through, which needs a service that allows changes of plan, the extensions asked for are set, and RDS accepts the modifications; the answer is asynchronous exactly for a plan that is not shared |
| UpdateAnswers.UpdateFailsIff | rdsbroker/broker.go:173-245 | which error it gives otherwise, exactly |
| UpdateAnswers.UpdateChanges | rdsbroker/broker.go:200-223 | whatever fails it changes no row, and on the servers at most the extensions of the database of that instance, and those only on Postgres and when a list comes with the request |
| UpdateAnswers.UpdateReachesTarget | sqlengine/postgres_engine.go:171-232 | a successful `Update` of a Postgres plan leaves exactly the requested extensions on that database, `plpgsql` apart, if and only if the listing was complete |
| UpdateAnswers.UpdateStaysBetween | sqlengine/postgres_engine.go:196-231 | whatever fails, a requested extension that was there stays, and nothing appears that is not requested |
| UpdateAnswers.ExtensionsComeFirst | rdsbroker/broker.go:200-223 | when the extensions cannot be set the answer is an error, and no call to RDS makes a difference to anything |
| InstanceAnswers.DeprovisionAnswersIff | rdsbroker/broker.go:247-306 | `Deprovision` succeeds exactly when the database of a shared instance is dropped, or RDS accepts the deletion of an RDS instance that is there; the answer is asynchronous exactly for the latter, and otherwise nothing changes |
| InstanceAnswers.DeprovisionFailsIff | rdsbroker/broker.go:247-306 | which error it gives otherwise, exactly |
| InstanceAnswers.DeletionHasBegun | rdsbroker/broker.go:288-303 | an asynchronous answer means that the deletion of the RDS instance has begun, and that of its cluster if RDS accepted it, and that record, databases, roles and grants are as they were |
| InstanceAnswers.SharedIsGone | rdsbroker/broker.go:269-287 | a synchronous answer means that the database and its extensions are gone from the shared server, and the record too if no deletion failed, and no other server or database changed |
| BindingAnswers.BindAnswersIff | rdsbroker/broker.go:308-378 | `Bind` answers with credentials exactly when everything is found, the service is bindable, the engine opens, a name is made, and either a stored user of that name is saved with the binding and its password opens, or a new one is stored and the server takes its account and its grant; on every engine |
| BindingAnswers.BindFailsIff | rdsbroker/broker.go:308-378 | which error it gives otherwise, exactly |
| BindingAnswers.BoundMeans | rdsbroker/broker.go:353-377 | from any state, the credentials name the database of the instance and a stored user that holds the binding and whose row opens to that password; a new account can use the database |
| BindingAnswers.UnbindAnswersIff | rdsbroker/broker.go:380-424 | `Unbind` succeeds exactly when a standard user of the instance has the binding, it is deleted, and, if it was the last of that user, the engine opens and the server takes both statements; the deletion of the user's row does not matter |
| BindingAnswers.UnbindFailsIff | rdsbroker/broker.go:380-424 | which error it gives otherwise, exactly |
| BindingAnswers.UnknownBindingIff | internaldb/models.go:105-118 | the binding is unknown exactly when no standard user of the instance has it in the tables, and then nothing changes |
| BindingAnswers.UnboundMeans | rdsbroker/broker.go:392-421 | success removes that binding and no other user's, and the user with its last binding unless a deletion of a row fails |
| InstanceAnswers.LastOperationAnswersIff | rdsbroker/broker.go:426-469 | an operation has succeeded exactly when RDS describes the instance as available and nothing is pending; it is in progress exactly in nine named states or when something is pending; any other state has failed, and shared instances have no operation |
| InstanceAnswers.LastOperationFailsIff | rdsbroker/broker.go:426-455 | which error it gives otherwise, exactly; only for an instance that RDS reports missing do rows go |
| RunRecords.NextKeepsRecords | internaldb/models.go:84-164 | one step of the broker, whatever fails in it, keeps foreign keys, unique instance IDs, unique usernames within an instance, at most one master, and exactly one unless a deletion has begun |
| RunRecords.ReachableRecordsAreSound | internaldb/models.go:58-128 | the same of every store that any run of requests with any failures reaches |
| RunRecords.UnbindNeverRemovesMaster | internaldb/models.go:205-216 | no `Unbind`, whatever fails, removes or changes a master user |
| RunReferences.InstancesChange | rdsbroker/broker.go:289-303 | all that any step can do to the instance table: nothing, one new record that was asked for, or the loss of a record that is shared or whose RDS instance was just reported gone |
| RunReferences.NoLostReference | rdsbroker/broker.go:443-455 | after a `Provision` that reported success for a dedicated plan, and until a `LastOperation` is told that this RDS instance is gone, the record stays, unchanged and with its master, over any run with any failures, and its ID cannot be provisioned again |
| RunReferences.PresentIsNeverGone | rdsbroker/broker.go:443-455 | in particular while the RDS instance exists throughout |
| RunReferences.RecordedIsNotProvisioned | internaldb/models.go:20 | an ID with a record is never provisioned and nothing is stored, not even when the look-up fails |
| RunReferences.PlansNeverDrift | rdsbroker/broker.go:193-242 | over any run every plan that an update applied has the engine and the sharing of the recorded plan |
| RunReferences.RecordsNeverChange | rdsbroker/broker.go:173-245 | a record, and so its plan, is never rewritten |
| Catalog.AllowedUpdateKeepsEngine | rdsbroker/broker_helpers.go:33-46 | a change that is let through keeps engine and sharing, also between equal plan IDs |
| RunClusters.ProvisionCompensates | rdsbroker/broker.go:147-168 | within one `Provision` a cluster deletion is issued exactly when the cluster was created and the call failed |
| RunClusters.ClustersAreCompensated | rdsbroker/broker.go:297-299 | over any run with any failures, on IDs with different identifiers, every cluster created is referenced by a record or has had a deletion issued |
| RunClusters.UnderscoreFreeApart | rdsbroker/broker.go:471-477 | IDs without underscores have different identifiers |
| ClusterOrphans.Orphaned | rdsbroker/broker.go:289-299 | for any two IDs that agree up to `-` and `_`, a run of seven steps in which every call succeeds and which leaves a cluster that nothing references |
| ClusterOrphans.CompensatedIff | rdsbroker/broker.go:297-299 | every run over a set of IDs compensates its clusters if and only if no two of the IDs share an identifier |
| Race.OneWinnerOneRecord | rdsbroker/broker.go:129-170 | however any number of `Provision` calls interleave, each ID has at most one record and at most one call that reports success, and the records are the earlier ones and one for each success |
| Race.LosersRemoveNothing | rdsbroker/broker.go:165-168 | no later step of the race removes or changes a stored row |
| Race.WinnersKeepTheirClusters | rdsbroker/broker.go:147-157 | a winner's cluster and RDS instance stay up, and once all calls have ended every cluster of the race is a winner's or has had a deletion issued |
| Race.UninterruptedIsProvision | rdsbroker/broker.go:104-171 | a call that nothing interrupts does what the sequential handler does |
| RefCountRuns.UsersStayInStep | rdsbroker/broker.go:308-424 | after any run over instance IDs with different Postgres role names that is careful at each step and draws fresh names, of every instance whose server exists: a user is a standard one exactly while it has a binding, the roles that can log in and hold its database are exactly its standard users, and each has the password the stored row opens to |
| RefCountRuns.NextCountedIff | rdsbroker/broker.go:104-469 | over IDs with different role names and with fresh names, one step of any handler with any pattern of failures keeps the invariant behind it if and only if the step is a careful one, which is told from the state, the request and the calls |
| RefCount.CountedIsInStep | internaldb/models.go:84-118 | the invariant gives the property, also with many instances on one shared server |
| RefCountProvision.ProvisionCountedIff | rdsbroker/broker.go:104-171 | `Provision` keeps the invariant if and only if it does not build the missing server of a record again, behind a look-up that failed, under standard users or without the database; whatever else fails |
| RefCountBind.BindCounted | rdsbroker/broker.go:308-378 | over IDs with different role names `Bind` keeps it if its two SQL statements go through, among them the one that revives a Postgres role with a new password |
| RefCountUnbind.UnbindCounted | rdsbroker/broker.go:380-424 | over IDs with different role names `Unbind` keeps it if the calls behind the last binding go through |
| DeletionFailures.DeprovisionCountedIff | rdsbroker/broker.go:247-306 | `Deprovision` keeps the invariant if and only if it does not drop a database, or deletes all rows of that instance and leaves no account of a standard user on MySQL; user drops on Postgres may fail |
| DeletionFailures.LastOperationCountedIff | rdsbroker/broker.go:443-455 | `LastOperation` keeps the invariant unless the deletion stops before the row of the instance and after its master user, or after the last binding of a standard user whose database server is still there; and only then does it not |
| RoleCollisions.Collides | sqlengine/postgres_engine.go:101-130 | on any broker with a bindable plan on the shared Postgres server and for any two IDs that share a role name: provision and bind one, then the other; all four requests succeed, and the first user cannot log in with the password that its stored row opens to |
| RoleCollisions.InStepIff | sqlengine/postgres_engine.go:280-290 | on such a broker every careful run over a set of IDs stays in step if and only if no two of the IDs share a role name |
| RoleCollisions.NoTwelveIsSpare | sqlengine/postgres_engine.go:280-290 | the spare random names that the failing run needs are there for IDs of any length but 12, such as GUIDs |
| Failures.ProvisionInStepIff | rdsbroker/broker.go:129-170 | from a state that satisfies the invariant, the state right after `Provision` is in step if and only if the call does not build the missing server of a record with standard users again, behind a look-up that failed |
| Failures.BindInStepIff | rdsbroker/broker.go:343-361 | from a state that satisfies the invariant, the state after `Bind` is in step, and satisfies it again, if and only if the guard for storing a new user, told from the inputs, does not hold or both SQL statements go through |
| Failures.AddsUserIff | internaldb/models.go:84-103 | that guard says exactly when the user table changes |
| Failures.RebindIsDead | rdsbroker/broker.go:343-361 | after the other case every `Bind` on Postgres in which all calls succeed answers with credentials that cannot be used |
| Failures.BindAnswersUsable | rdsbroker/broker.go:363-377 | whatever fails, credentials handed out from a state that satisfies the invariant can be used |
| Failures.UnbindInStepIff | rdsbroker/broker.go:392-421 | from a state that satisfies the invariant, the state after `Unbind` is in step, and satisfies it again, if and only if it does not take a last binding on an existing server or every later call goes through |
| DeletionFailures.DeprovisionInStepIff | rdsbroker/broker.go:264-287 | from a state that satisfies the invariant, the state right after `Deprovision` is in step unless the database is dropped, the deletion stops before the instance, and then a user remains whose role does not work or one whose role works has lost its last binding; and only then is it not |
| DeletionFailures.LastOperationInStepIff | rdsbroker/broker.go:443-455 | likewise for the state right after `LastOperation`: unless the database server is still there, as a cluster can be, and the deletion stops after the last binding of a standard user and before the instance |
| Leftovers.NewInstanceInStepIff | rdsbroker/broker.go:104-171 | from any state in step with sound rows, a `Provision` of an ID without a record puts users and roles out of step if and only if it stores the instance on a shared server where a role can already use its database |
| Leftovers.ReprovisionInStepIff | rdsbroker/broker.go:270-287 | after a `Deprovision` that dropped the database and deleted all rows, a `Provision` of the same ID, with any plan and whatever fails, is in step unless the drop of a standard user failed on MySQL and the new instance is stored on that server; and only then is it not |
| Witnesses.FailedBindHappens | rdsbroker/broker.go:343-361 | on any broker that offers a bindable Postgres instance: one `Provision`, one `Bind` whose role is not created, and the next `Bind` succeeds with credentials that cannot be used |
| Witnesses.FailedUnbindHappens | rdsbroker/broker.go:392-415 | one `Provision`, one `Bind` and one `Unbind` whose revocation fails leave a standard user without a binding |
| Witnesses.RebuiltHappens | rdsbroker/broker.go:129-132 | provision and bind, have the instance deleted, and provision again with a failed look-up before `LastOperation`: a standard user without a role |
| Witnesses.FailedSaveHappens | rdsbroker/broker.go:165-168 | a `Provision` in which only the save fails leaves an RDS instance without a record, and the same request then fails |
| DeletionWitnesses.HalfDeprovisionHappens | rdsbroker/broker.go:269-287 | provision and bind on the shared Postgres server, then a `Deprovision` that drops the database and the users and deletes no row: a standard user without a role |
| DeletionWitnesses.LastRowStaysHappens | rdsbroker/broker.go:443-455 | provision and bind on Aurora, have the RDS instance go before its cluster, then a `LastOperation` that deletes all rows but that of the instance: a role that can log in without a user |
| DeletionWitnesses.LastRowStays | rdsbroker/broker.go:443-455 | the same from every state that satisfies the invariant with such an instance |
| DeletionWitnesses.LeftoverHappens | rdsbroker/broker.go:276-282 | provision and bind on the shared MySQL server, deprovision with the user drop failing, provision the same ID again with every call going through: the old account can use the new database, and no stored user has its name |
| DeletionWitnesses.LostDatabaseHappens | rdsbroker/broker.go:270-287 | provision and bind on the shared Postgres server, deprovision with the deletion stopping right before the row of the instance: in step, and the next `Bind` with every call going through stores a user, fails, and is not |
| ProvisionFailures.InstanceLeftIff | rdsbroker/broker.go:159-170 | when a new RDS instance is left, when this call does not record it, and when no record of its ID exists, each exactly and told from the request, the rows, the servers and the calls |
| ProvisionFailures.NewServersIff | rdsbroker/broker.go:147-163 | whatever fails, exactly which servers are new after a `Provision` |
| ProvisionFailures.UnrecordedBlocks | rdsbroker/broker.go:159-168 | after a call that built an RDS instance and did not record it the same request fails over any run for as long as that RDS instance exists |
| Models.DBInstance.Bind | internaldb/models.go:84-103 | against its specification on the tables; and the copy in memory gets exactly one more entry, with the random name, when the name is new and a user can be made, whether or not the save goes through, and is unchanged otherwise |
| Models.CopyShowsNameIff | internaldb/models.go:84-103 | that copy shows the requested name afterwards if and only if it did before or the random name is the same |
| Models.DBInstance.Unbind | internaldb/models.go:105-118 | against its specification: the binding goes, and the caller learns whether it was the last |
| Models.DBInstance.Delete | internaldb/models.go:144-153 | the nested deletions stop where one fails and have removed exactly a prefix of the cascade |
| Models.DeleteUser | internaldb/models.go:155-164 | the deletions of one user, likewise |
| Models.Database.SaveInstance | internaldb/models.go:20 | the unique index refuses a second record for an ID, whatever the caller checked |
| Models.FindInstance | internaldb/models.go:75-82 | finds a record of that ID, and None only if there is none |
| Models.LoadInstanceLoads | internaldb/models.go:75-82 | what is loaded shows every user of the instance and every binding of each, once |
| Models.MasterUser | internaldb/models.go:196-203 | finds a master user exactly if there is one |
| Models.BindingUser | internaldb/models.go:205-216 | finds a standard user with that binding exactly if there is one |
| Models.UserNamed | internaldb/models.go:218-225 | finds a user of that name exactly if there is one |
| Models.NewUserOpens | internaldb/models.go:130-142 | a new user's password opens under the key it was made with |
| Records.InstanceCascadeKeepsIntegrity | internaldb/models.go:144-153 | however far `DBInstance.Delete` gets, no row refers to a missing one |
| Records.UserCascadeKeepsIntegrity | internaldb/models.go:155-164 | however far `DBUser.Delete` gets, no row refers to a missing one |
| Records.InstanceCascadeRemovesExactly | internaldb/models.go:144-153 | a deletion that runs to its end removes that instance's rows and no others |
| Records.InsertInstanceKeeps | internaldb/models.go:58-72 | a new instance keeps the tables sound |
| Records.BindKeeps | internaldb/models.go:84-103 | `Bind` keeps the tables sound, also when its save fails |
| Records.UnbindKeeps | internaldb/models.go:105-118 | `Unbind` and as much of the deletion after it as goes through keep the tables sound |
| Records.DeleteInstanceKeeps | internaldb/models.go:144-153 | an interrupted deletion keeps the tables sound for an instance whose deletion has begun |
| Records.UnbindSparesMasters | internaldb/models.go:205-216 | neither `Unbind` nor the deletion after it removes a master |
| KeyRotation.RotateKey | internaldb/manage.go:10-51 | the nested loop leaves the store and gives the report of the run over all users in loading order |
| KeyRotation.RotateOne | internaldb/manage.go:17-34 | one row is opened, sealed again and saved, or left as it was |
| KeyRotation.RotationIsSafe | internaldb/manage.go:10-51 | whatever fails, each row is unchanged or opens under the new key to what it held under the old, and nothing else changes |
| KeyRotation.ReportIsExact | internaldb/manage.go:35-50 | without fail-fast the error count is the number of rows not rotated; in both modes the run ends without error if and only if all are |
| KeyRotation.TriedIsFirstFailure | internaldb/manage.go:35-46 | fail-fast mode stops at the first row that fails |
| KeyRotation.EveryUserIsReached | internaldb/manage.go:11-46 | while foreign keys hold the loops reach every user row |
| KeyRotation.ContentsSurviveRuns | internaldb/manage.go:10-51 | across any sequence of runs no stored password changes |
| KeyRotation.UnderOneOfTheKeys | internaldb/manage.go:10-51 | between two keys a row is always under one of them |
| KeyRotation.RerunRotatesTheRest | internaldb/manage.go:35-50 | a rerun rotates exactly the rows still under the old key |
| KeyRotation.OneMoreRunCompletes | internaldb/manage.go:35-50 | one rerun in which no call fails completes the rotation, however the earlier runs ended |
| KeyRotation.FailFastStopsAtRotated | internaldb/manage.go:35-46 | a fail-fast rerun stops at the first row that is already rotated and changes nothing from there on |
| KeyRotation.RotationKeepsNoncesApart | internaldb/models.go:166-178 | rotation never uses a nonce twice under a key, whatever fails, if the nonces it draws are fresh |
| Extensions.PostgresDatabase.SetExtensions | sqlengine/postgres_engine.go:171-232 | the two pairs of nested loops send a prefix of the planned statements and stop at the first that is refused |
| Extensions.PostgresDatabase.DropUnwanted | sqlengine/postgres_engine.go:196-211 | the first pair of loops against the plan |
| Extensions.PostgresDatabase.CreateMissing | sqlengine/postgres_engine.go:212-230 | the second pair of loops against the plan |
| Extensions.DropsMembers | sqlengine/postgres_engine.go:196-211 | exactly what is listed and not requested is dropped |
| Extensions.CreatesMembers | sqlengine/postgres_engine.go:212-230 | exactly what is requested and not listed is created, `plpgsql` excepted |
| Extensions.SucceedsIff | sqlengine/postgres_engine.go:171-232 | success exactly when the names are valid, the query answers, no sent statement is refused and nothing still to be created is there already or requested twice |
| Extensions.SuccessReachesTarget | sqlengine/postgres_engine.go:171-232 | what success leaves installed, and that the whole plan was sent |
| Extensions.TargetReachedIff | sqlengine/postgres_engine.go:179-192 | success reaches the requested set if and only if the listing was complete |
| Extensions.TruncatedListingHappens | sqlengine/postgres_engine.go:179-192 | a truncated listing with which success is reported and an unwanted extension stays |
| Extensions.StoppedAnywhere | sqlengine/postgres_engine.go:197-231 | stopped anywhere, the set lies between old and requested together and either of them |
| Extensions.DropsComeFirst | sqlengine/postgres_engine.go:197-231 | nothing is created before all drops are done |
| Extensions.InvalidNameTouchesNothing | sqlengine/postgres_engine.go:172-177 | an invalid name sends nothing and changes nothing |
| Extensions.RerunConverges | sqlengine/postgres_engine.go:171-232 | after a run stopped anywhere one undisturbed run reaches the target and the next sends nothing |
| PostgresText.TwoPassesAreOne | sqlengine/postgres_engine.go:309-315 | escaping backslashes and then quotes equals a single pass |
| PostgresText.ConnectionStringRoundTrip | sqlengine/postgres_engine.go:266-274 | reading the printed string back gives the six settings, cut at the first NUL, for every configuration |
| PostgresText.ConnectionStringInjective | sqlengine/postgres_engine.go:266-274 | no two NUL-free configurations print the same |
| PostgresText.QuoteValueRoundTrip | sqlengine/postgres_engine.go:298-304 | a quoted value reads back as a string constant, and reading stops at its end |
| SqlServers.SentPasswordIs | sqlengine/postgres_engine.go:101-130 | the server reads the password that was sent |
| Names.NamesCollideIff | rdsbroker/broker.go:471-477 | two IDs share a database name if and only if they share an RDS identifier, if and only if they agree up to `-` and `_` |
| Names.UnderscoreFreeNamesDiffer | internaldb/models.go:64 | both names are injective on IDs without underscores |
| Names.RolesCollideIff | sqlengine/postgres_engine.go:280-290 | role names are at most 63 long, and two IDs share one if and only if their first 62 characters agree up to `-` and `_` |
| Names.ShortRolesDiffer | sqlengine/postgres_engine.go:280-290 | role names are injective on IDs of at most 62 characters without underscores |
| Names.DBNameIsIdentifier | internaldb/models.go:64 | a database name from a valid prefix and an ordinary ID is a simple identifier |
| Utils.OpenAfterSeal | utils/utils.go:23-52 | sealing works with keys of 128, 192 and 256 bits and no others, and what is sealed opens under its key and nonce and under no other |
| Utils.RandString | utils/utils.go:61-68 | exactly the requested length if and only if that is a multiple of four, then without padding and different for different bytes |
| Utils.Encode64Length | utils/utils.go:61-68 | the length of the text for any buffer |
| Utils.Decode64Encode64 | utils/utils.go:61-68 | on whole groups the encoding is undone by decoding |
| Utils.RandUsernameWellFormed | utils/utils.go:74-81 | every generated username has 13 characters and is a simple identifier |
| Utils.RandPasswordWellFormed | utils/utils.go:70-72 | every generated password has 24 characters, none of them NUL or a quote, and different bytes give different passwords |
| Utils.NamesByAlphabet | utils/utils.go:83-89 | a valid extension name is a text of the base64url alphabet that begins with a letter, and a simple identifier is one without dashes or empty |
| Catalog.FindService | rdsbroker/catalog.go:108-116 | finds a service of that ID exactly if there is one |
| Catalog.PlanNamed | rdsbroker/catalog.go:118-130 | finds a plan of that ID exactly if there is one |
| Catalog.SharedEngineFoundIff | rdsbroker/catalog.go:174-202 | a valid shared plan finds its engine if and only if its name is in lower case |
| Catalog.CapitalEngineIsLost | rdsbroker/broker.go:140 | a valid plan whose engine is not found |
| Catalog.ValidPlanIff | rdsbroker/catalog.go:155-202 | a plan is valid exactly when its texts are there, an instance of its own has a class, and its engine is provided, not written `postgresql`, and one of the shared ones where the plan is shared |
| Catalog.ValidPlanIsProvided | sqlengine/provider_service.go:18-27 | every valid plan has an engine, Postgres for that name in any case and MySQL otherwise, and it is the shared one where there is one |
| AwsRds.RdsInstance.Modify | awsrds/rds_db_instance.go:88-126 | the state of the instance after a modification, immediate, deferred or refused |
| AwsRds.StorageNeverShrinks | awsrds/rds_db_instance.go:295-301 | over any sequence of modifications and maintenance windows storage does not decrease |
| AwsRds.MaximumIff | awsrds/rds_db_instance.go:295-301 | the size that an instance has or is about to get is at every moment the greatest of the initial and the accepted sizes if and only if no modification undercuts a pending one |
| AwsRds.AppliedBeforeNextGivesMaximum | awsrds/rds_db_instance.go:295-301 | so it is when each modification is applied, at once or in a window, before the next that asks for a size is accepted |
| AwsRds.PendingSizeIsLost | awsrds/rds_db_instance.go:295-301 | a pending 100 followed by an immediate 80: the 100 is lost |
| AwsRds.AppliedAtOnceGivesMaximum | awsrds/rds_db_instance.go:295-301 | applied at once, storage is the greatest of the initial and the accepted requested sizes |
| AwsVersions.ModifyAnswersIff | awsrds/rds_db_instance.go:88-126 | when exactly a modification is accepted and why it is not: a failed description, another engine in any case of letters, a version without a minor part, a refusal; only an accepted one changes anything |
| AwsVersions.LastVersionIff | awsrds/rds_db_instance.go:323-326 | the version that an instance has or is about to get is at every moment the last that was accepted if and only if no modification asks for the current version while another is pending |
| AwsVersions.UpgradeIsNotCalledOff | awsrds/rds_db_instance.go:323-326 | asking for the current version leaves a pending upgrade as it is |
| AwsVersions.UpgradeFlagIff | awsrds/rds_db_instance.go:323-326 | the flag for a major upgrade is sent exactly for a numeric one if and only if the orders agree on the first differing component |
| AwsRds.AllowMajorVersionUpgradeIff | awsrds/rds_db_instance.go:378-390 | the string comparison agrees with the numeric one if and only if the orders agree on the first differing component |
| AwsRds.SameDigitCounts | awsrds/rds_db_instance.go:378-390 | in particular when corresponding components have equally many digits |
| AwsRds.NineToTenIsMissed | awsrds/rds_db_instance.go:378-390 | a version step that the comparison gets wrong |

## Left out

- AWS SDK calls, HTTP, gorm, SQL connections, logging, configuration files: stores with arbitrary outcomes; saving one record is atomic, and a failed call is taken to have had no effect.
- AES-GCM and randomness: sealing is symbolic, so that a wrong key fails is part of the model and not a cryptographic claim; nonces are 12 bytes long; freshness of names is a hypothesis of `UsersStayInStep`.
- The builders that copy plan fields into requests, apart from engine, storage and version; tags, snapshots, `Services`, the command-line programs.
- Describe calls report whether a server exists truthfully or fail; the database name that RDS reports is the one the broker asked for.
- Storage sizes are in `AwsRds` and not in the state of the whole broker, and maintenance windows are in `AwsRds` only.
- The SQL servers of `Broker` are values, not objects: what is proved of them does not cover aliasing. Only roles made by the broker, their grants and the databases are in them; master users, object ownership and open connections are not.
- MySQL connection strings, URIs and JDBC URIs.
- `strings.ToLower` on letters outside ASCII.
- Concurrency is modelled for `Provision`, whose check the code itself calls racy; the other handlers run one at a time.
- The process is not interrupted within a handler other than by failed calls, except in `Race`.
- UsersStayInStep: speaks of instances whose database server exists; after that server is gone `Unbind` still deletes bindings and cannot drop users. That the IDs have different Postgres role names is necessary for a broker that offers a bindable shared Postgres plan (`RoleCollisions.InStepIff`); a broker without one needs less.
- RefCountRuns.NextCountedIff: for instance IDs with different Postgres role names, like `UsersStayInStep`; what happens to others is `RoleCollisions.Collides`.
- RefCountProvision.ProvisionCountedIff: likewise.
- RefCountBind.BindCounted: likewise.
- RefCountUnbind.UnbindCounted: likewise.
- DeletionFailures.DeprovisionCountedIff: likewise.
- DeletionFailures.LastOperationCountedIff: likewise.
- RoleCollisions.InStepIff: needs two random usernames that are no role names of the IDs, which a set of IDs of 12 characters could in principle use up.
