# Verified model of the database operator's core

A Dafny model of the parts of the database operator where correctness is hard to see: ownership
provisioning and its repair tool, grant and revoke on CockroachDB, the backup byte path, retry and error
classification, and the canonical forms and parsers around them. `dafny verify dfyconfig.toml` checks all
of it.

| file | content |
|---|---|
| `Catalog.dfy` | the database server as an explicit state, its statements, and an adapter through which any call may fail before or after taking effect |
| `Derive.dfy` | owner role and app user names derived from a database name |
| `Ownership.dfy` | the plan of a provisioning run, the goal it is meant to reach, and the order `Between` in which every run moves towards it |
| `Provision.dfy` | the provisioning pipeline as a class over the adapter, and what holds over whole histories of failed runs |
| `Migration.dfy` | `dbctl migrate reverse-privileges`: integrity checks, repair, dry run, and its agreement with provisioning |
| `Teardown.dfy` | dropping owner role and app user, and what becomes of their objects |
| `Grants.dfy` | expansion of a grant option into statements, revocation, and the exact residue |
| `Encryption.dfy`, `Backup.dfy` | padding, CBC and GCM framing, buffering writers and chunked readers |
| `Errors.dfy`, `Retry.dfy` | error chains and their class, backoff with cap and jitter |
| `Quoting.dfy`, `ClickHouse.dfy` | SQL quoting against a lexer, GRANT printing against its parser |
| `Deletion.dfy`, `Conditions.dfy` | the deletion-confirmation preimage, the condition list |
| `Privileges.dfy` | privilege keywords, their normal form and the builders' allowlists |
| `Text.dfy` | the few string operations of the Go library that the rest needs |

## How failure is modelled

Every adapter call consults a fault script: it may go through, be lost on the way out (no effect, error), or
be lost on the way back (effect, error). The script is arbitrary, so each contract speaks about every way in
which a run can be interrupted; an empty script is a run without faults. The adapter also records every
server state there has been, so that safety is stated about all intermediate states and not only the last.

Servers differ in what they take, so the state says it: whether a default privilege on a missing schema is an
error, and which privileges do not apply to which sort of securables (`PgRefused` is PostgreSQL's answer). The
results hold for every such server; the witnesses are about PostgreSQL.

## Findings

Properties that turned out false of the code, each with its exact condition:

- **New databases with schemas of their own.** Default privileges are set before the step that creates the
  schemas (`internal/service/database_ownership_pipeline.go:85-95`). On a server that rejects a default
  privilege for a missing schema, a new database completes only if it asks for no schema besides `public`
  (`NewDatabaseWithSchemas`), and retrying never helps (`StuckForever`).
- **Database names of 59 to 63 characters**, which the API admits, derive the same name for role and user;
  such a database can never be provisioned (`DerivedNamesDiffer`, `LongNamesNeverComplete`).
- **Some grants can never be revoked.** Revoking an option that names a schema and lists no table begins with a
  statement about all tables of the schema, even where the option was granted on sequences, on functions or for
  its USAGE alone. A fault-free revoke of a granted list completes exactly if every such option names privileges
  of the allowlist that apply to tables (and its schema exists); otherwise it stops there, and everything granted
  from there on stays (`RevokeAfterGrant`, `WithdrawAfterApply`). EXECUTE on a function of a schema is such an
  option on PostgreSQL (`FunctionGranted`, `FunctionGrantStays`); so is `["SELCT"]` on a schema, which the API's
  pattern admits (`api/v1alpha1/postgres_types.go:338`) and which keeps a CONNECT behind it for good
  (`MisspeltGranted`, `MisspeltStays`). Neither is revoked by any attempt, with faults or without.
- **Revoke takes what grant did not give** exactly when a schema is named, no table is listed, the option lists
  sequences or functions or has no recognised table keyword, its privileges are on the allowlist and apply to
  tables, and the grantee already held one of them on a table of the schema (`RevokeOverreachesExactly`,
  `ListOverreachesExactly`). SELECT on a sequence does it (`SequenceOverreach`), and so do `ALL PRIVILEGES` and a
  keyword with a blank behind it on the schema, which are not recognised as table keywords (`OverreachWitness`).
- **A lost REASSIGN destroys objects**, because its error is discarded and DROP OWNED follows
  (`TeardownLosesExactly`, `LostReassignDestroys`).
- **The documented cap on retry intervals** (`internal/util/retry.go:33`) is passed by jitter, which is
  applied after the cap. Before retry k it holds for every draw exactly if there is no jitter, or the cap is
  zero, or (1+r)^k·InitialInterval·m^(k-1) is within it (`CapHoldsExactly`, with a configuration that fails
  in `CapPassed`); it is passed by no more than the factor 1+r (`WaitBounds`). The three shipped
  configurations keep it in all the retries they allow (`ShippedConfigsKeepCap`).
- **Text around an error can raise its class** from transient to connection, for instance a resource named
  `geofence`, which contains `eof` (`WrapChangesExactly`, `ResourceNameRaisesClass`).
- **A printed ClickHouse GRANT parses back** exactly when no name holds a backtick or ` TO `, the database
  holds no dot and the table is not `*` (`GrantRoundTrip`). A grant on everything and one on a database named
  `*` are described alike (`StarDatabaseLooksGlobal`).
- **The deletion preimage** cannot tell no children from one child with an empty name, and a name with a line
  break from two names (`PreimageCanonical`, `LineBreakCollides`).
- **Reading on after a failed read** of an encrypted source delivers a tail of the data and no prefix: without
  encryption always, with CBC exactly if the lost bytes end at a block and leave two (`AfterFailures`).

Where documentation and code disagree the model follows the code: the API documents `*` in a list of tables,
sequences or functions as all of them (`api/v1alpha1/postgres_types.go:323-333`), while the statements quote it
as a name (`internal/adapter/sqlbuilder/grant.go:138-147`).

## Model

| member | source | states |
|---|---|---|
| `Derive.DerivedNamesDiffer` | internal/service/ownership.go:49-72 | derived role and user names are non-empty, at most 63 characters, and differ if and only if the database name has at most 58 |
| `Derive.DerivedNamesInjective` | internal/service/ownership.go:49-72 | up to 54 characters both derivations are injective and no role name is any user name |
| `Derive.DerivedNamesCollide` | internal/service/ownership.go:49-72 | from 60 characters on, two databases share their role if and only if they share their first 60 characters |
| `Catalog.Adapter.Exec` | internal/adapter/cockroachdb/role.go:35-72 | a statement takes effect if it is legal and not lost, and is reported as done only if its answer arrives too |
| `Catalog.Adapter.RoleExists` | internal/adapter/cockroachdb/role.go:95-110 | reads the catalog without changing anything; fails only by a fault |
| `Catalog.Adapter.SetDefaultPrivilege` | internal/adapter/cockroachdb/grant.go:375-405 | an option the builder refuses sends nothing; any other sends one ALTER DEFAULT PRIVILEGES with an unnamed database resolved |
| `Catalog.ObjectTypesLiterally` | internal/adapter/cockroachdb/grant.go:384-397 | the five object types a default privilege can be about |
| `Privileges.PgDataPrivileges` | internal/adapter/sqlbuilder/privilege.go:24-41 | fifteen privileges pass the builder, these on data among them |
| `Privileges.PgOtherPrivileges` | internal/adapter/sqlbuilder/privilege.go:24-41 | and these others |
| `Ownership.GoalStable` | internal/service/database_ownership_pipeline.go:76-98 | a state between the start and the goal has the same goal: progress never moves the target |
| `Ownership.GoalIdempotent` | internal/service/database_ownership_pipeline.go:76-98 | provisioning a provisioned database changes nothing, and the goal satisfies all ownership facts |
| `Ownership.PartialBetween` | internal/service/database_ownership_pipeline.go:76-135 | the state after any prefix of the steps lies between start and goal, and after all of them is the goal |
| `Ownership.StepAt` | internal/service/database_ownership_pipeline.go:76-98 | the seven steps in their order, the default privileges left out where the spec disables them |
| `Ownership.ReadyIffCompletable` | internal/service/database_ownership_pipeline.go:76-135 | every step of the pipeline can be taken if and only if a condition on the start state alone holds |
| `Ownership.CompletableStable` | internal/service/database_ownership_pipeline.go:76-135 | interrupting the pipeline anywhere neither rescues nor spoils a plan |
| `Ownership.StandardDefsAllWellFormed` | cmd/dbctl/cmd/migrate_reverse_privileges.go:117-125 | every standard default privilege passes the builder's allowlists and is already in normal form |
| `Ownership.StandardDefsTaken` | cmd/dbctl/cmd/migrate_reverse_privileges.go:117-125 | the standard default privileges apply to their types of object on PostgreSQL |
| `Provision.EnsureOwnerRole` | internal/service/ownership.go:76-101 | check-then-create: ends between start and the step's goal, success means the goal, and without faults it succeeds |
| `Provision.CreateOnly` | internal/service/database.go:114-151 | an existing database is a success, an empty name an error; the result is set if and only if the step succeeded and says which case it was |
| `Provision.VerifyDatabaseAccess` | internal/adapter/cockroachdb/database.go:215-218 | changes nothing and succeeds without faults if and only if the database exists |
| `Provision.Transfer` | internal/service/ownership.go:139-149 | the owner becomes the role or the state is unchanged |
| `Provision.EnsureOwnerUser` | internal/service/ownership.go:106-136 | creates the user if missing and grants membership; completes without faults if and only if the role exists and differs from the user |
| `Provision.SetPair` | internal/service/ownership.go:182-214 | forward then reverse entries of one object type in one schema, nothing else, whatever fails |
| `Provision.SetSchemaDefaults` | internal/service/ownership.go:181-215 | all object types of one schema |
| `Provision.SetDefaults` | internal/service/ownership.go:161-219 | for every schema list and every iteration order of the schema set, exactly {public} and the schemas times object types times both directions are added |
| `Provision.CreateSchemas` | internal/adapter/cockroachdb/database.go:173-213 | configured schemas come to exist in order; existing ones keep their owner |
| `Ownership.WithSchemasFirst` | internal/adapter/cockroachdb/database.go:202-213 | of several entries of one name the first decides the owner of a new schema |
| `Provision.SetSpecDefaults` | internal/adapter/cockroachdb/database.go:255-278 | the spec's own default privileges are added exactly, up to the first refusal |
| `Provision.Update` | internal/adapter/cockroachdb/database.go:173-199 | schemas, then default privileges: the last step's goal, or a state on the way to it |
| `Provision.ProvisionPlan.Execute` | internal/service/database_ownership_pipeline.go:100-135 | each step reaches its goal or stops short of it; the create result is set by the create step and by no other |
| `Provision.ProvisionPlan.Run` | internal/service/provision.go:44-56 | the returned count is the number of leading steps that completed, the state lies between that prefix and the next, every state on the way is safe, and without faults success is decided by the start state |
| `Provision.NewPlan` | internal/service/database_ownership_pipeline.go:44-66 | missing schema owners and the spec's owner are overwritten in place with the owner role, and the plan is the one for the spec |
| `Provision.SchemaNames` | internal/service/database_ownership_pipeline.go:68-74 | the collected names are exactly the names of the schemas |
| `Provision.CreateWithOwnership` | internal/service/database.go:314-336 | a spec without auto-ownership is refused before anything is touched; a completed request provides, in terms of the spec alone: the names db_NAME_owner and db_NAME_app cut after 63 characters or the configured ones, the role without and the user with LOGIN, membership, ownership, schemas with their owners, exactly the default privileges of both directions and of the spec, and says whether the database was new |
| `Provision.GoalProvides` | internal/service/database_ownership_pipeline.go:44-98 | the goal of a plan that can complete provides all that |
| `Provision.StandardEntry` | internal/service/ownership.go:161-219 | the standard entries, to the letter: SELECT, INSERT, UPDATE, DELETE on tables, USAGE, SELECT on sequences, EXECUTE on functions, in both directions, on public and every schema of the spec |
| `Provision.SpecEntry` | internal/adapter/cockroachdb/database.go:255-278 | the spec's own default privileges, each granted by its role to itself |
| `Provision.RunStep` | internal/service/provision.go:44-56 | one turn of the loop either completes the next prefix or fails in a state from which nothing is lost |
| `Provision.AttemptsKeep` | internal/service/database_ownership_pipeline.go:76-153 | any number of failed runs, each interrupted anywhere, keeps the goal and the prospects of the plan |
| `Provision.Confluence` | internal/service/database_ownership_pipeline.go:76-153 | after any number of failed runs, a run that completes reaches exactly what one clean run would have reached from the very first state |
| `Provision.Reconcile` | internal/service/database_ownership_pipeline.go:141-153 | the pipeline run again and again, each time under its own faults: it ends in the goal of the first state, and one fault-free run among them decides it |
| `Provision.StuckForever` | internal/service/provision.go:44-56 | a plan that one clean run cannot complete is never completed by retrying |
| `Provision.SafeKeeps` | internal/service/database_ownership_pipeline.go:100-135 | at every moment of every run nothing has been removed, no other role, membership or database has changed, and the database has its old owner or the role |
| `Provision.SafeStep` | internal/service/database_ownership_pipeline.go:100-135 | every state between two prefixes is safe; in particular the database is never created before its owner role |
| `Provision.LongNamesNeverComplete` | internal/service/ownership.go:106-136 | with derived names, a database name of 59 or more characters is never provisioned |
| `Provision.NewDatabaseWithSchemas` | internal/service/database_ownership_pipeline.go:76-98 | on a strict server a new database completes only without schemas besides public, and then does |
| `Migration.DriftComplete` | cmd/dbctl/cmd/migrate_reverse_privileges.go:362-487 | no drift is reported if and only if all ownership facts hold |
| `Migration.DriftLiterally` | cmd/dbctl/cmd/migrate_reverse_privileges.go:369-487 | every reported diff to the letter: field, expected, actual and whether it is destructive |
| `Migration.DryThenRepair` | cmd/dbctl/cmd/migrate_reverse_privileges.go:362-530 | a dry run and then the repairing run: whenever both report a list it is the same list, whatever the names and faults; without faults the dry run reports exactly if database and user exist |
| `Migration.DriftsAgree` | cmd/dbctl/cmd/migrate_reverse_privileges.go:369-487 | the diffs of both modes are the same once the user exists or has a name of its own |
| `Migration.RepairFixpoint` | cmd/dbctl/cmd/migrate_reverse_privileges.go:362-530 | after repair all ownership facts hold, a later run reports no diffs, and repairing or migrating again changes nothing |
| `Migration.RepairedStays` | cmd/dbctl/cmd/migrate_reverse_privileges.go:362-530 | not even an interrupted later run changes a repaired state |
| `Migration.RepairTwice` | cmd/dbctl/cmd/migrate_reverse_privileges.go:362-530 | repair, then repair again under any faults: the second run changes nothing, reports nothing if it returns, and returns if it meets no fault |
| `Migration.MigrationAfterProvisioning` | cmd/dbctl/cmd/migrate_reverse_privileges.go:309-351 | after provisioning, migration adds nothing |
| `Migration.ProvisioningIsMigrationPlusSpec` | internal/service/ownership.go:161-219 | on an existing database, provisioning reaches the migrated state plus the schemas and defaults of the spec |
| `Migration.ProvisioningAfterMigration` | internal/service/database_ownership_pipeline.go:76-98 | provisioning after migration reaches what provisioning alone would have |
| `Migration.MigrationEqualsProvisioning` | cmd/dbctl/cmd/migrate_reverse_privileges.go:198-213 | where the schemas exist and the spec lists no defaults, both programs reach one state |
| `Migration.EitherRunKeeps` | cmd/dbctl/cmd/migrate_reverse_privileges.go:309-351 | one run of either program, interrupted or not, keeps the provisioning goal and whether it can be reached |
| `Migration.MixedConfluence` | internal/service/database_ownership_pipeline.go:141-153 | after any interleaving of interrupted runs of both programs, a completed provisioning run reaches what one clean run would have reached from the first state |
| `Migration.SetDirection` | cmd/dbctl/cmd/migrate_reverse_privileges.go:309-329 | one direction over any schema list, duplicates included, adds exactly its entries |
| `Migration.GetRoleInfo` | internal/adapter/cockroachdb/role.go:167-211 | a missing role is an error; otherwise exactly the roles it is a member of |
| `Migration.IntegrityCheck.CheckRole` | cmd/dbctl/cmd/migrate_reverse_privileges.go:369-425 | checks 1 and 2: a missing role is a diff, and unless dry is created |
| `Migration.IntegrityCheck.CheckMembership` | cmd/dbctl/cmd/migrate_reverse_privileges.go:427-459 | a dry check needs the user to exist; a repairing one grants the missing membership |
| `Migration.IntegrityCheck.CheckOwner` | cmd/dbctl/cmd/migrate_reverse_privileges.go:461-487 | a wrong owner is a destructive diff, and unless dry is corrected |
| `Migration.IntegrityCheck.RunDry` | cmd/dbctl/cmd/migrate_reverse_privileges.go:362-487 | changes nothing at any moment; without error reports exactly the drift and fixes nothing |
| `Migration.IntegrityCheck.RunRepair` | cmd/dbctl/cmd/migrate_reverse_privileges.go:362-530 | without error, fixed equals the number of diffs and the state is the repaired one; with an error, a state on the way to it |
| `Migration.Migrate` | cmd/dbctl/cmd/migrate_reverse_privileges.go:283-351 | the whole migration: repaired ownership and both directions over all schemas, or a state on the way to it |
| `Teardown.DropRole` | internal/adapter/cockroachdb/role.go:77-92 | the three statements in order, with only the last one's error reported |
| `Teardown.DropOwnershipResources` | internal/service/ownership.go:223-244 | user first with its failure swallowed, then the role, which decides; success means the role is gone |
| `Teardown.ObjectsAfterDrop` | internal/adapter/cockroachdb/cleanup.go:37-41 | the objects after one drop are determined by whether its two cleanup statements arrive |
| `Teardown.ObjectsLostExactly` | internal/adapter/cockroachdb/cleanup.go:37-41 | objects disappear if and only if the role owns some, DROP OWNED arrives, and REASSIGN does not or hands them to the role itself |
| `Teardown.TeardownLosesExactly` | internal/service/ownership.go:223-244 | the teardown of user and role destroys objects if and only if a condition on the start state and on which of its six statements are lost holds, the cases of one principal and of the operator included |
| `Teardown.ObjectsConserved` | internal/service/ownership.go:223-244 | if each REASSIGN takes effect then, whatever else fails, no object disappears, those of role and user end with the operator, and all others keep their owner |
| `Teardown.LostReassignDestroys` | internal/adapter/cockroachdb/cleanup.go:37-41 | a run in which only a REASSIGN is lost and an object disappears |
| `Teardown.CleanTeardown` | internal/service/ownership.go:223-244 | without faults the teardown of both principals succeeds, exactly their roles are gone, and nothing refers to them |
| `Teardown.CleanDrop` | internal/adapter/cockroachdb/role.go:77-92 | the same for one role |
| `Grants.SearchTablePrivilege` | internal/adapter/cockroachdb/grant_helpers.go:40-47 | finds a table keyword if and only if some privilege is spelled as one, ignoring case but not surrounding space |
| `Grants.BuildObjectGrants` | internal/adapter/cockroachdb/grant.go:228-299 | the statements of an option, schema-wide ones first, or nothing if a privilege is off the allowlist |
| `Grants.GrantPrivileges` | internal/adapter/cockroachdb/grant.go:169-224 | holdings and grant options grow by the option's footprint, or by part of it if something fails, and only in the database it names, or the configured one if it names none; without faults it succeeds if and only if the option is accepted, a condition on option and start state |
| `Grants.RevokePrivileges` | internal/adapter/cockroachdb/grant.go:302-372 | holdings and grant options shrink by the option's revoke footprint, or by part of it, and only in the database it names, or the configured one if it names none; without faults it succeeds if and only if the option is accepted, and one refused by the builder or at its first statement changes nothing |
| `Grants.Grant` | internal/adapter/cockroachdb/grant.go:29-36 | the same over a list of options; without faults it succeeds if and only if every option is accepted |
| `Grants.Revoke` | internal/adapter/cockroachdb/grant.go:39-46 | the same for revoking; an option refused outright shields itself and all behind it, and without faults all before the first refused one is gone |
| `Grants.RevokeCoversGrant` | internal/adapter/cockroachdb/grant.go:169-372 | for every option revoking covers all that granting added except schema USAGE, which it never touches |
| `Grants.RevocableExactly` | internal/adapter/cockroachdb/grant.go:169-372 | a granted option is revoked in full if it is revocable, and otherwise refused without effect; revocable is a condition on option and state alone |
| `Grants.RevokeOverreachesExactly` | internal/adapter/cockroachdb/grant.go:169-372 | granting and revoking an option takes a holding that was not granted if and only if a condition on the option and the state before holds |
| `Grants.ListOverreachesExactly` | internal/adapter/cockroachdb/grant.go:29-46 | the same for a list of options, up to the first that is refused |
| `Grants.OverreachWitness` | internal/adapter/cockroachdb/grant_helpers.go:27-47 | on PostgreSQL, ALL PRIVILEGES or a keyword with a blank behind it meets that condition wherever the grantee holds SELECT on a table of the schema |
| `Grants.SequenceOverreach` | internal/adapter/cockroachdb/grant.go:328-335 | so does SELECT on a sequence of the schema |
| `Grants.ListedTablesBoundRevoke` | internal/adapter/cockroachdb/grant.go:302-372 | an option that lists tables grants and revokes on its listed objects only |
| `Grants.FootprintsConfined` | internal/adapter/cockroachdb/grant.go:169-372 | no other grantee and no other database is touched by either side |
| `Grants.GrantedExactly` | internal/adapter/cockroachdb/grant.go:169-299 | in plain terms, what granting an option gives: on the database, as USAGE on the schema, on each listed object, or on every table of the schema |
| `Grants.RegrantedExactly` | internal/adapter/cockroachdb/grant_helpers.go:51-56 | grant options come with all of it but schema USAGE, if asked for |
| `Grants.RevokedExactly` | internal/adapter/cockroachdb/grant.go:302-372 | in plain terms, what revoking an option takes |
| `Grants.ListGrantsExactly` | internal/adapter/cockroachdb/grant.go:29-46 | the same for lists, each option in its own database or, unnamed, in the configured one |
| `Grants.TablePrivilegeLiterally` | internal/adapter/cockroachdb/grant_helpers.go:25-47 | the eight table keywords |
| `Grants.SelectReachesTables` | internal/adapter/cockroachdb/grant.go:278-299 | SELECT on a schema is SELECT on each of its tables |
| `Grants.OthersUntouched` | internal/service/grant_strategy_postgres.go:32-97 | over a list, only the user's holdings are touched, and only in databases its options name, or in the configured one if some option names none |
| `Grants.GrantRevokeResidue` | internal/adapter/cockroachdb/grant.go:29-46 | grant, complete or not, then a complete revoke of the same list leaves the earlier holdings minus the revoked ones plus schema USAGE, and no grant option |
| `Grants.RevokeAfterGrant` | internal/adapter/cockroachdb/grant.go:29-46 | a complete grant, then a revoke without faults: it completes if and only if every option is revocable; in every case the exact residue, which is schema USAGE alone if it completes and otherwise everything granted from the first refused option on |
| `Grants.MisspeltGranted` | internal/adapter/cockroachdb/grant.go:278-299 | a misspelt privilege on a schema, then CONNECT on the database, are granted by every PostgreSQL server that has the names |
| `Grants.MisspeltStays` | internal/adapter/cockroachdb/grant.go:328-335 | no revoke, whatever faults it meets, gets past the misspelt option: nothing changes, and CONNECT stays |
| `Grants.FunctionGranted` | internal/adapter/cockroachdb/grant.go:261-270 | PostgreSQL grants EXECUTE on a function of a schema |
| `Grants.FunctionGrantStays` | internal/adapter/cockroachdb/grant.go:328-335 | no list that starts with it is ever revoked, not even in part and whatever else fails |
| `Grants.RefusedFirst` | internal/adapter/cockroachdb/grant.go:302-372 | revoking a list whose first option is refused outright never does anything |
| `Grants.GrantRoles` | internal/adapter/cockroachdb/grant.go:49-66 | memberships grow by exactly the listed roles, or some of them; without faults it succeeds if and only if all exist and none is the grantee |
| `Grants.RevokeRoles` | internal/adapter/cockroachdb/grant.go:69-86 | memberships shrink by exactly the listed roles, or some of them; without faults it succeeds if and only if all exist |
| `Grants.SetDefaultPrivileges` | internal/adapter/cockroachdb/grant.go:90-102 | default privileges grow by the entries of all options, or of a leading part; without faults it succeeds if and only if each can be built and is legal |
| `Grants.Apply` | internal/service/grant_strategy_postgres.go:32-68 | roles, grants, then defaults: the combined outcome, a result counting what was applied, and success without faults if and only if the start state accepts all three |
| `Grants.Withdraw` | internal/service/grant_strategy_postgres.go:70-97 | roles and grants are revoked, default privileges are not; success without faults if and only if roles exist and every option is accepted, and otherwise how far it got |
| `Grants.ApplyWithdrawResidue` | internal/service/grant_strategy_postgres.go:32-97 | apply, complete or not, then a complete revoke leaves exactly schema USAGE and default-privilege entries behind, minus the roles and holdings the spec names |
| `Grants.WithdrawAfterApply` | internal/service/grant_strategy_postgres.go:32-97 | a complete apply, then a revoke without faults: it completes if and only if every grant option is revocable, and the exact residue in either case |
| `Encryption.CbcDecryptsEncrypted` | internal/storage/encryption.go:188-192 | chaining back undoes chaining, for every cipher, IV and block-aligned message (section 6.2 of NIST SP 800-38A) |
| `Encryption.CbcEncryptsDecrypted` | internal/storage/encryption.go:206-213 | and the other way round |
| `Encryption.CbcEncryptBlock` | internal/storage/encryption.go:188-192 | the equations of CBC encryption, block by block (section 6.2 of NIST SP 800-38A) |
| `Encryption.CbcDecryptBlock` | internal/storage/encryption.go:210-213 | the equations of CBC decryption, block by block |
| `Encryption.SealIsChained` | internal/storage/encryption.go:188-194 | the IV goes first, and every block behind it is the encryption of a padded block combined with the block before |
| `Encryption.UnpadPadded` | internal/storage/encryption.go:172-227 | padding is undone for every message (section 6.3 of RFC 5652) |
| `Encryption.PadUnpadded` | internal/storage/encryption.go:215-226 | an accepted padding is the one padding produces |
| `Encryption.PaddedBytes` | internal/storage/encryption.go:173-180 | as many bytes as are missing to a full block, at least one, each of that value (section 6.3 of RFC 5652) |
| `Encryption.CbcSeal` | internal/storage/encryption.go:172-195 | the ciphertext has 16·(⌊n/16⌋+2) bytes |
| `Encryption.CbcOpenSeal` | internal/storage/encryption.go:172-227 | decryption undoes encryption for every message and IV |
| `Encryption.CbcAcceptsExactly` | internal/storage/encryption.go:197-227 | decryption accepts exactly the encryptions, each as the one message it encrypts |
| `Encryption.CbcAfterLoss` | internal/storage/encryption.go:197-227 | a sealed message that has lost its first bytes opens exactly if the loss ends at a block and leaves two blocks, and then to the tail of the message |
| `Encryption.CbcEncryptMessage` | internal/storage/encryption.go:172-195 | the padding loop and framing compute the sealed message, chained block by block behind the IV; without entropy there is an error |
| `Encryption.CbcDecryptMessage` | internal/storage/encryption.go:197-227 | never indexes out of range on any input, and accepts exactly the encryptions |
| `Encryption.RemovePadding` | internal/storage/encryption.go:215-226 | accepts exactly the blocks whose last byte announces a padding that is there to the last byte |
| `Encryption.GcmAcceptsExactly` | internal/storage/encryption.go:128-152 | nonce framing: accepts exactly sealed messages behind their nonce (sections 7.1 and 7.2 of NIST SP 800-38D) |
| `Encryption.GcmFrame` | internal/storage/encryption.go:128-137 | the nonce goes first, the sealed message behind it |
| `Encryption.DecryptsExactly` | internal/storage/encryption.go:95-227 | for each of the three encryptors, decryption accepts exactly what encryption produces and recovers the message |
| `Encryption.Encrypt` | internal/storage/encryption.go:95-195 | what is produced decrypts to the plaintext; without entropy there is an error |
| `Encryption.Decrypt` | internal/storage/encryption.go:95-227 | computes the decryption of any input or refuses it |
| `Backup.BackupWriter.Write` | internal/storage/backup_helper.go:135-137 | appends to the buffer and reports the full length |
| `Backup.BackupWriter.Close` | internal/storage/backup_helper.go:140-167 | succeeds if and only if compression, encryption and the write do; then the path holds bytes that decrypt to the compressed buffer; no other key changes, whatever fails |
| `Backup.EncryptingWriter.Close` | internal/storage/encryption.go:255-270 | on success the sink has received bytes that decrypt to everything written; nothing it held is lost, it is closed in every case, and success means that encryption, write and close all worked |
| `Backup.DecryptingReader.Read` | internal/storage/encryption.go:290-313 | decrypts on the first read that gets the source, delivers the next bytes, leaves the rest of the buffer alone, and reports EOF only at the end; a failed read of the source costs what it consumed |
| `Backup.RestoreReader.Read` | internal/storage/backup_helper.go:266-268 | delivers the next bytes of the decompressor's stream, as many as it has at hand, leaves the rest of the buffer alone, and at the end reports EOF, or the corruption of the stream |
| `Backup.NewRestoreReader` | internal/storage/backup_helper.go:203-263 | a reader is returned if and only if the stored bytes exist, decrypt and carry a header the decompressor knows; corruption further on is left to a later read |
| `Backup.DeliveredExactly` | internal/storage/encryption.go:290-313 | any sequence of buffer sizes delivers a prefix, and all of it once the sizes add up |
| `Backup.ReadDecrypted` | internal/storage/encryption.go:290-313 | any sequence of reads of a source that fails no more delivers the prefix its sizes allow, reports EOF exactly by a read made after the last byte, and fails throughout if the source does not decrypt |
| `Backup.ReadOn` | internal/storage/encryption.go:290-313 | the same for a source that fails any number of times first: each failure costs one read, and what comes then is the decryption of what is left |
| `Backup.AfterFailures` | internal/storage/encryption.go:290-313 | what that is: the whole if nothing was lost, and otherwise the tail or nothing, by an exact condition for no encryption and for CBC |
| `Backup.StoredIsRestorable` | internal/storage/backup_helper.go:135-263 | what was stored is what a restore with the same configuration yields |
| `Backup.OtherBackupsKept` | internal/storage/backup_helper.go:140-167 | backups under other keys restore as before |
| `Backup.RoundTrip` | internal/storage/backup_helper.go:135-268 | for any chunking of writes and any sequence of reads: success if and only if compression, encryption and the write succeed; the output is a prefix of the data, all of it if the buffers suffice; EOF is reported exactly by a read made after all of it; other backups are kept |
| `Backup.EncryptedRoundTrip` | internal/storage/encryption.go:250-313 | the same for the encrypting writer and the decrypting reader |
| `Errors.WrapperMessages` | internal/service/errors.go:55-129 | the messages of the three wrappers to the letter |
| `Errors.ClassifyExactly` | internal/reconcileutil/requeue.go:55-101 | from the chain alone: permanent exactly with a validation error, an unsupported engine or an existing resource in it; otherwise connection exactly with a failed connection, a timeout or their wrappers in it, or if it is to be retried; and requeued never, after 60 or after 30 seconds |
| `Errors.RetryableExactly` | internal/util/retry.go:179-220 | the outermost verdict in the chain decides, and without one the message |
| `Errors.ForeignRetriedExactly` | internal/util/retry.go:190-219 | a foreign error is retried exactly if its text holds one of the patterns, ignoring case |
| `Errors.ConnectionPatterns` | internal/util/retry.go:192-211 | the patterns about connections |
| `Errors.NetworkPatterns` | internal/util/retry.go:192-211 | the patterns about hosts and networks |
| `Errors.ServerPatterns` | internal/util/retry.go:192-211 | the patterns about servers that are not ready |
| `Errors.KnownAtAnyDepth` | internal/reconcileutil/requeue.go:55-101 | each known error under any wrapping: which are never requeued and which after 60 seconds |
| `Errors.WrapOnce` | internal/reconcileutil/requeue.go:55-84 | one layer of wrapping keeps whether an error is permanent and never loses a connection error |
| `Errors.WrapAny` | internal/reconcileutil/requeue.go:55-101 | the same for any depth, and so for whether a reconcile is requeued |
| `Errors.WrapChangesExactly` | internal/util/retry.go:179-220 | text around an error changes its class if and only if it completes a pattern of an undecided transient error, and then raises it |
| `Errors.ResourceNameRaisesClass` | internal/service/errors.go:55-77 | a resource name that does so |
| `Errors.LooksTransientWrapped` | internal/util/retry.go:190-219 | a substring match survives wrapping |
| `Retry.RetryWithBackoff` | internal/util/retry.go:92-165 | the whole trace: at most MaxRetries + 1 calls, or 1000 if negative, every call before the last failed retryably, which error is last, every wait and why the loop ended |
| `Retry.WaitBounds` | internal/util/retry.go:102-157 | the wait before retry k lies within factors (1-r)^k and (1+r)^k of min(MaxInterval, InitialInterval·m^(k-1)) and never passes (1+r)·MaxInterval |
| `Retry.CapHoldsExactly` | internal/util/retry.go:102-157 | for every sensible configuration and every k, the wait before retry k respects MaxInterval for all draws if and only if there is no jitter, the cap is zero, or (1+r)^k·InitialInterval·m^(k-1) is within it |
| `Retry.PastCap` | internal/util/retry.go:138-156 | wherever that condition fails, draws that pass the cap |
| `Retry.CapPassed` | internal/util/retry.go:145-156 | a configuration capped at 60 seconds whose first wait takes 64.8 |
| `Retry.ShippedConfigsKeepCap` | internal/util/retry.go:43-75 | the three shipped configurations keep their cap in every retry they allow |
| `Retry.RequeueAfter` | internal/util/retry.go:223-248 | five minutes after a success; after a failure the last interval times the multiplier, clamped between InitialInterval and MaxInterval, the former winning |
| `Quoting.IdentifierRoundTrip` | internal/adapter/clickhouse/adapter.go:187-190 | for every string, lexing consumes exactly the quoted identifier and yields the name (section 5.2 of ISO/IEC 9075-2) |
| `Quoting.LiteralRoundTrip` | internal/adapter/clickhouse/adapter.go:193-197 | the same for literals, with quotes doubled and backslashes escaped (section 5.3 of ISO/IEC 9075-2) |
| `ClickHouse.GrantStatement` | internal/adapter/clickhouse/grant.go:43-58 | a statement is printed if and only if every privilege is on the allowlist |
| `ClickHouse.GrantRoundTrip` | internal/adapter/clickhouse/grant.go:207-265 | parsing a printed GRANT gives back privileges and scope if and only if the names are faithful |
| `ClickHouse.GranteeReadBack` | internal/adapter/clickhouse/grant.go:52-56 | behind the TO stands the grantee, quoted: the lexer reads it back |
| `ClickHouse.TargetPlainly` | internal/adapter/clickhouse/grant.go:207-224 | the printed target to the letter, for every level |
| `ClickHouse.PrintedPlainly` | internal/adapter/clickhouse/grant.go:52-56 | the printed statement to the letter |
| `ClickHouse.WordsAreFaithful` | internal/adapter/clickhouse/grant.go:207-265 | names of word characters always are |
| `ClickHouse.ParsedFieldsFree` | internal/adapter/clickhouse/grant.go:227-265 | whatever the row, the parsed database holds no dot and neither parsed name holds TO between spaces |
| `ClickHouse.TrimEscaped` | internal/adapter/clickhouse/grant.go:250-262 | trimming recovers a quoted name if and only if it holds no backtick |
| `ClickHouse.DottedNameMisread` | internal/adapter/clickhouse/grant.go:248-262 | a dot is fatal in a database name and harmless in a table name |
| `ClickHouse.StarDatabaseLooksGlobal` | internal/adapter/clickhouse/grant.go:207-265 | a grant on everything and one on a database named * print differently and are described alike |
| `Deletion.PreimageCanonical` | internal/util/deletion_confirmation.go:33-39 | for one-line names, preimages agree if and only if the lists agree as multisets, or both are blank |
| `Deletion.PreimageOrderFree` | internal/util/deletion_confirmation.go:33-39 | reordering never changes the preimage, whatever the names hold |
| `Deletion.AdditionChanges` | internal/util/deletion_confirmation.go:31-39 | adding a named child anywhere changes the preimage |
| `Deletion.LineBreakCollides` | internal/util/deletion_confirmation.go:37 | a name with a line break collides with two names |
| `Deletion.ComputeDeletionHash` | internal/util/deletion_confirmation.go:33-39 | the digest of the sorted names; the caller's list is not modified |
| `Deletion.IsForceDeleteConfirmed` | internal/util/deletion_confirmation.go:41-53 | compares the annotation dbops.dbprovision.io/confirm-force-delete, empty if missing, with the digest of the present children |
| `Deletion.ConfirmationExactly` | internal/util/deletion_confirmation.go:49-53 | a confirmation given for one list is honoured for another if and only if they agree as multisets, or both are blank |
| `Conditions.ConditionList.SetCondition` | internal/util/conditions.go:64-93 | afterwards the first entry of the type says exactly what was set, since now, or since when it already said so; a new one goes to the end, a found one keeps its place and generation; the map it stands for is updated; unique types stay unique |
| `Conditions.ConditionList.RemoveCondition` | internal/util/conditions.go:118-126 | all entries of the type go, the others keep their order |
| `Conditions.GetCondition` | internal/util/conditions.go:96-103 | finds the first entry of the type, which is the map's, if and only if there is one |
| `Conditions.IsConditionTrue` | internal/util/conditions.go:106-109 | true if and only if the map holds the type with status true |
| `Conditions.IsConditionFalse` | internal/util/conditions.go:112-115 | true if and only if the map holds the type with status false |
| `Conditions.RunRefinesMap` | internal/util/conditions.go:64-126 | over any sequence of calls and from any list, the list refines a map |
| `Conditions.LastCallDecides` | internal/util/conditions.go:64-126 | over any sequence of calls, the last call about a type decides: a set gives the entry its words, a removal leaves none |
| `Conditions.RunKeepsUnique` | internal/util/conditions.go:64-126 | over any sequence of calls, types stay unique |
| `Conditions.RunKeepsOthers` | internal/util/conditions.go:64-126 | over any sequence of calls, entries of untouched types and their order stay |
| `Conditions.RepeatsKeepEntry` | internal/util/conditions.go:70-81 | setting an entry to what it already says, any number of times, leaves it untouched, transition time included |
| `Conditions.EntryHistory` | internal/util/conditions.go:64-93 | an entry keeps its generation, and is what it was or owes its time and its words to one and the same call |

## Left out

- Interference: other actors changing the server between the operator's calls.
- Membership cycles longer than a role granted to itself, which a server also rejects.
- REASSIGN OWNED and DROP OWNED act on the whole server in the model, not on the current database only.
- Unqualified object names resolve to `public`; search paths are not modelled.
- Names are sequences of one-byte characters, so length in bytes and in characters coincide; upper and lower case are ASCII only.
- Migrate: takes a non-empty database name, as the API's validation demands (api/v1alpha1/database_types.go:33-39), and leaves out events, status updates and the printed SQL.
- Catalog.Adapter.Exec: models all statements the adapters send as one typed call; the SQL text is modelled only for ClickHouse GRANT and for quoting.
- Backup.RestoreReader.Read: the source delegates to a decompressor, which is modelled by the stream it yields and how much of it is at hand at each read.
- Backup.RoundTrip: keys are given; the naming of backup paths and the storage backends are not modelled.
- Retry.RetryWithBackoff: intervals are exact reals; rounding to whole nanoseconds and overflow of a duration are not modelled.
- Deletion.ConfirmationExactly: asks that the digest tells the two preimages apart; collisions of the truncated SHA-256 are not modelled.
- Backup.AfterFailures: for GCM says nothing of a source that has lost bytes, since what an AEAD makes of another message is not modelled.
- Compression algorithms, AES, GCM and SHA-256 themselves: parameters with the laws they promise.
- Clock, randomness and cancellation: parameters.
- PostgreSQL and MySQL adapters, extensions, users with passwords, rotation, retention, feature controllers.
- Kubernetes API types, events, metrics, logging, command line and configuration builders: data and field copying.
- The option builders of the grant strategy (internal/service/grant_strategy_postgres.go:100-129), which copy fields.
