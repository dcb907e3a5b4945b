# Verified model of the rpi-nest API

The repository is a REST service for a Raspberry Pi device: it edits network settings through
NetworkManager with a checkpoint that must be confirmed, keeps users and settings in a key-value store,
guards routes with signed tokens, sets the clock and the NTP server, rewrites its own OpenAPI document
and reads the text output of system tools. This project models those behaviours in Dafny and proves
what they guarantee, for all inputs and over all runs. `dafny verify dfyconfig.toml` checks everything.

## How it is organised

One module per source file or concern, each in the file of its name.

| module | what it holds |
|---|---|
| `Variants` | D-Bus value trees, wrapping and deep unwrapping |
| `ConnectionSettingsAdapter` | the class that edits an `ipv4` or `ipv6` dictionary in place |
| `NetworkManager` | the environment: profiles, applied connections with versions, checkpoints |
| `NetworkTransactions` | the update protocol as a labelled transition system, any number of requests in flight |
| `TransactionRefinement` | what confirming and rolling back do to profiles, over whole runs |
| `EffectRefinement` | what they do to the connections in effect, by who put them there, over whole runs |
| `SerialRefinement` | what isolates requests from one another: profiles and connections in effect are what the confirmed requests alone leave |
| `TransactionBoundaries` | runs that break those properties |
| `NetworkSettingsService` | the service class that drives the protocol |
| `NetworkSessions` | any sequence of its calls as a run of the protocol, and what follows for it |
| `SessionEffects` | when what is confirmed in a session comes into effect |
| `NetworkService` | the simple settings of the API and their round trip through the whole stack |
| `UserRepository`, `UserService`, `AuthenticationService` | the user store and the services over it, as classes |
| `PasswordRefinement` | those services, run in sequence, as a plain map from logins to passwords |
| `UserInterleaving` | the same calls overlapping, each stopped at its awaits |
| `AuthenticationGuard` | the route guard, and its agreement with the record a token was minted from |
| `Settings` | the cached settings store with its shared defaults objects, and the reset loop |
| `TimeDate` | milliseconds to microseconds through a double, and back |
| `DateTimeService` | the timesyncd configuration: printer, regular expression, runs of writes |
| `Json`, `OpenApi` | lodash's deep merge, and the two passes over the OpenAPI document |
| `DpkgCommand`, `RpiConfigCommand` | delimited text, printed by a tool and parsed back |
| `Strings`, `Wrappers` | split and join at one character; `Option` and `Result` |

Classes stand where the source updates an object in place; their methods are tied to functions on the
old and new state, and the lemmas are about those functions. Runs are sequences of labels or calls.

## What the code does not do

Where the code and what one would expect of it part ways, the model follows the code. A lemma gives the
input, and another gives the exact condition under which the expectation holds:

- A profile write that lands after its own checkpoint timed out is not rolled back
  (`TransactionBoundaries.LateWriteEscapes`): the device falls back to it from then on, until some
  confirmation or another such write (`TransactionBoundaries.FallbackStays`). If it lands on the checkpoint
  of another request, confirming that one makes it final (`TransactionBoundaries.ForeignWriteIsConfirmed`).
  Every device falls back to the settings of the last confirmed request, whichever way its open checkpoint
  ends, if and only if each write lands while its own request's checkpoint is live, or writes what is
  already there (`TransactionRefinement.TransactionalIff`).
- A rollback between the profile write and the reading of the version does not disarm the deferred
  re-apply: it brings the rolled-back settings into effect, although every write landed safely
  (`TransactionBoundaries.EarlyRollbackIsReintroduced`). Nothing that the re-apply of a rolled-back request
  put there is in effect, or would come back, if and only if each re-apply that goes through is one of a
  request that was not rolled back, or changes nothing (`EffectRefinement.FullyUndoneIff`); reading every
  version in time is enough (`EffectRefinement.ReadingInTimeSuffices`).
- The profile is read before the checkpoint is created, so a request can carry along what another one had
  written: that one is rolled back, this one confirmed, and the rolled-back settings are in the profile and
  in effect for good, although both conditions above hold (`TransactionBoundaries.DirtyReadIsConfirmed`). In
  the same way it can put its edit of an older profile in the place of a confirmed update
  (`TransactionBoundaries.UpdateIsLost`). Every device falls back to what the confirmed requests alone
  leave, one after another, whichever way its open checkpoint ends, if and only if each write under its own
  checkpoint writes that request's edit of what the checkpoint holds, and each other write changes nothing
  (`SerialRefinement.SerialIff`). A second look at the profile once the checkpoint exists would see to it
  (`SerialRefinement.AlwaysCarryIff`, `SerialRefinement.BuildingOnSuffices`), and then nothing of a
  rolled-back request is in effect either (`SerialRefinement.InEffectIsSerial`).
- All of these take overlap, or a timeout inside an update: a session of calls that do not overlap, with
  timeouts between them, has all three properties without any condition
  (`NetworkSessions.SessionsAreTransactional`, `NetworkSessions.SessionsAreSerial`).
- Even in such a session a confirmed update may never come into effect: the re-apply that still waits runs
  under the checkpoint of the next update and is undone with it (`SessionEffects.ConfirmedNeverInEffect`). A
  device's profile is in effect once the waiting re-applies have run, at every point and also after a
  timeout, if and only if each update that makes a checkpoint finds the profile in effect and no other
  settings armed to be re-applied, and nothing but the profile is put into effect from outside
  (`SessionEffects.AlwaysInStepIff`).
- `isVariant` looks at two property names only, so a dictionary with both a `value` and a `signature` key
  is taken for a variant and collapses (`Variants.ValueSignatureDictionaryCollapses`). Unwrapping takes
  off exactly the variant layers if and only if the tree is proper (`Variants.UnwrapIsStripIffProper`).
  Over the whole stack this is the one reason a round trip can fail (`NetworkService.SubmitThenRead`).
- Unwrapping is not idempotent even for trees with no variant in a variant
  (`Variants.SecondUnwrappingCollapses`); it is for exactly the single-layered ones
  (`Variants.UnwrapIdempotentIff`).
- `created <= modified` fails after the clock was set back, which this API can do
  (`UserInterleaving.ModifiedBeforeCreated`). Every record is in order at every point of a run if and only
  if each edit is stamped at a clock not below its record's creation (`UserInterleaving.AlwaysInOrderIff`).
- `merge` into an undefined `components` builds an object that is dropped, and every added reference then
  dangles (`OpenApi.AddedReferencesResolveIff`).
- An NTP address with a line terminator reads back cut at it (`DateTimeService.ReadOfTemplate`), and every
  other one whole (`DateTimeService.RoundTripIff`).
- A date whose product rounds down reads back one millisecond short (`TimeDate.MillisecondLost`), every
  other one exactly (`TimeDate.ReadBackIff`); below 2^56 microseconds this never happens
  (`TimeDate.ExactUpTo56Bits`).

Other behaviours that a reader may not expect, modelled as they are:

- The IPv6 method `dhcp`, which the request offers, is validated and stored as `manual`
  (`ConnectionSettingsAdapter.OtherMethodsAreManual`).
- bcrypt reads 72 bytes of a password, so two passwords that agree on them are one
  (`PasswordRefinement.LoginIffLastPassword` is stated with that cut).
- A token keeps the roles the user had at login until it expires
  (`AuthenticationGuard.AgreesWithRecordAtLogin`).
- The final newline of the dpkg output gives one phantom package (`DpkgCommand.PackagesRoundTripIff`).
- Line breaks in the usage text of raspi-config are removed, not split at, so two ids parted by one alone become
  one (`RpiConfigCommand.BrokenLine`).

Two lemmas only mark where the interleaving results end; overlapping calls are not claimed to be free of
this, and no condition is given: an edit that was read before a password change puts the old password back
(`UserInterleaving.StaleEditRevertsPassword`), and a write queued before a removal brings the user back
(`UserInterleaving.QueuedWriteResurrects`).

## What the model takes as given

- NetworkManager, as its D-Bus API describes it: a checkpoint snapshots the profile and the applied
  connection of its device; with flags 0 a second checkpoint on a device is refused; a rollback restores
  the snapshot and counts as a new version; `Reapply` with a non-zero version other than the current one
  fails; versions start at 1; checkpoint objects are numbered and their paths end in that number. Each
  device has one profile, and only this service writes it. A timeout may come at any moment. `GetSettings`
  reports an empty `address-data` when none is stored, and otherwise what was stored, beside any further keys.
- Hashes are ideal: a comparison succeeds exactly when the first 72 bytes agree.
- The signer yields texts without spaces, the same one only for the same payload, and only what it signed
  verifies.
- The users store is not cached, so each read gives fresh objects; the settings store is, and keeps
  references. A put or a removal reaches the store whole.
- A double product is rounded to nearest, ties to even (IEEE 754, section 4.3.1).
- For the states of configurations: the shell splits the joined ids into words and raspi-config prints one
  digit for each, in order.

## Model

| member | source | states |
|---|---|---|
| `TransactionRefinement.TransactionalIff` | src/dbus/interfaces/network-manager/network-settings.service.ts:105-171 | in every run of interleaved updates, commits, timeouts and failures, at every point and whichever checkpoint is confirmed or times out next, each device is left with the settings of the last confirmed request (or what the run started with), if and only if each profile write lands while its own request's checkpoint is live, or writes what is there |
| `TransactionRefinement.ConfirmingCommits` | src/dbus/interfaces/network-manager/network-settings.service.ts:57-65 | after any run whose writes land so, committing the id of a request that has written, while its checkpoint is live, leaves exactly that request's settings in the profile and no checkpoint, and changes nothing else in NetworkManager |
| `TransactionRefinement.OwnCheckpointsSuffice` | src/dbus/interfaces/network-manager/network-settings.service.ts:137-149 | in particular every run is transactional in which each write lands while its own request's checkpoint is live |
| `TransactionRefinement.LastStep` | src/dbus/interfaces/network-manager/network-settings.service.ts:147-149 | one more step keeps every fallback at the last confirmed request's settings and every live checkpoint over its own request's settings, if and only if it is not an unsafe write |
| `TransactionRefinement.EndsWellIff` | src/dbus/interfaces/network-manager/network-settings.service.ts:57-65 | whichever checkpoint ends next every device is left with what was last committed, if and only if each live checkpoint lies over what its own request wrote, or over its snapshot before that |
| `TransactionRefinement.SafeStep` | src/dbus/interfaces/network-manager/network-settings.service.ts:105-171 | a step that lands safely moves what a device falls back to only by a confirmation, and then to the confirmed request's settings |
| `TransactionRefinement.UnsafeStep` | src/dbus/interfaces/network-manager/network-settings.service.ts:147-149 | an unsafe write moves a fallback nobody confirmed, or leaves a checkpoint over settings that are not its request's |
| `TransactionRefinement.StepDevices` | src/dbus/interfaces/network-manager/network-settings.service.ts:57-163 | each step changes a device by a write, a new checkpoint, a confirmation, a timeout, an outside change or a re-apply, as stated field by field, or not at all |
| `TransactionRefinement.StepKeeps` | src/dbus/interfaces/network-manager/network-settings.service.ts:105-171 | a request past its checkpoint keeps device, id and settings through every step, and has written exactly from its own write on |
| `TransactionRefinement.OwnerIsUnique` | src/dbus/interfaces/network-manager/network-settings.service.ts:138-143 | a live checkpoint belongs to one request |
| `EffectRefinement.FullyUndoneIff` | src/dbus/interfaces/network-manager/network-settings.service.ts:151-163 | at every point of a run no device has in effect, or in the snapshot of its live checkpoint, anything that the re-apply of a rolled-back request put there (whoever first asked for it), if and only if each re-apply that goes through is one of a request that was not rolled back, or changes nothing |
| `EffectRefinement.OriginsAreTrue` | src/dbus/interfaces/network-manager/network-settings.service.ts:105-171 | in every run what is in effect on a device, and in its live checkpoint, is what the last change that was not undone put there, and the snapshot does not come from the request that made the checkpoint |
| `EffectRefinement.InEffectIsConfirmed` | src/dbus/interfaces/network-manager/network-settings.service.ts:57-163 | after such a run, what a device without a live checkpoint has in effect is what it started with, what was put there from elsewhere, or the settings of a request whose checkpoint was confirmed |
| `EffectRefinement.ReadingInTimeSuffices` | src/dbus/interfaces/network-manager/network-settings.service.ts:149-159 | nothing that the re-apply of a rolled-back request put there is in effect, in every run in which each version is read before its request is rolled back |
| `EffectRefinement.EveryCheckpointHasItsFate` | src/dbus/interfaces/network-manager/network-settings.service.ts:57-65 | in every run the checkpoint of each request is live, was confirmed, or timed out |
| `EffectRefinement.OwnersAreNotRolledBack` | src/dbus/interfaces/network-manager/network-settings.service.ts:138-143 | in every run a request whose checkpoint is live was not rolled back |
| `EffectRefinement.OwnStepsSuffice` | src/dbus/interfaces/network-manager/network-settings.service.ts:137-152 | a run in which each request writes and reads the version under its own checkpoint is transactional, and nothing the re-apply of a rolled-back request put there is in effect |
| `SerialRefinement.SerialIff` | src/dbus/interfaces/network-manager/network-settings.service.ts:132-149 | at every point of a run, and whichever checkpoint is confirmed or times out next, every device falls back to what the confirmed requests alone leave, one after another in the order of confirmation, if and only if each write under its own checkpoint writes that request's edit of what the checkpoint holds, and each other one changes nothing |
| `SerialRefinement.AlwaysCarryIff` | src/dbus/interfaces/network-manager/network-settings.service.ts:132-138 | at every point of a run each live checkpoint's request carries its own edit of what the device falls back to, if and only if each checkpoint is created over a profile of which the settings computed before are still the edit |
| `SerialRefinement.BuildingOnSuffices` | src/dbus/interfaces/network-manager/network-settings.service.ts:132-149 | with writes that land safely and checkpoints created so, what devices fall back to and what was last committed are both what the confirmed requests alone leave |
| `SerialRefinement.InEffectIsSerial` | src/dbus/interfaces/network-manager/network-settings.service.ts:132-163 | with writes and readings under own checkpoints created so, a device without a live checkpoint has in effect what it started with, what was put there from elsewhere, or what the confirmed requests alone left at some point, whoever put it there |
| `SerialRefinement.EveryRequestConcludes` | src/dbus/interfaces/network-manager/network-settings.service.ts:57-163 | in such a run a request that has written is open, was rolled back, or left as its settings what the confirmed requests alone leave |
| `SerialRefinement.LastSerialStep` | src/dbus/interfaces/network-manager/network-settings.service.ts:147-149 | one more step keeps fallbacks and offers at what the confirmed and the open requests leave, if and only if it writes no other edit |
| `SerialRefinement.EndsSeriallyIff` | src/dbus/interfaces/network-manager/network-settings.service.ts:57-65 | whichever checkpoint ends next, every device is left with what the confirmed requests alone leave, if and only if each live checkpoint lies over its own request's edit of what it holds, or over what it holds before the write |
| `SerialRefinement.OwnersAfter` | src/dbus/interfaces/network-manager/network-settings.service.ts:137-143 | who owns a live checkpoint after a step owned it before, with the same snapshot and settings, or made it in that step |
| `TransactionBoundaries.LateWriteEscapes` | src/dbus/interfaces/network-manager/network-settings.service.ts:147-149 | from every initial state, a request whose checkpoint times out before its write leaves its settings in the profile with no checkpoint, rolled back and unconfirmed |
| `TransactionBoundaries.FallbackStays` | src/dbus/interfaces/network-manager/network-settings.service.ts:98-104 | over any run what a device falls back to moves by a confirmation or an unsafe write only |
| `TransactionBoundaries.ForeignWriteIsConfirmed` | src/dbus/interfaces/network-manager/network-settings.service.ts:57-65 | from every initial state and for any two differing edits of one device, a late write on another request's checkpoint becomes final when that other request is confirmed |
| `TransactionBoundaries.EarlyRollbackIsReintroduced` | src/dbus/interfaces/network-manager/network-settings.service.ts:149-159 | from every initial state, a request whose own checkpoint times out between its write and its reading of the version puts its settings into effect, beside a profile that does not hold them, in a run whose writes all land safely |
| `TransactionBoundaries.DirtyReadIsConfirmed` | src/dbus/interfaces/network-manager/network-settings.service.ts:132-163 | from every initial state and for every edit that an empty one does not give, a request that asks for nothing reads another one's unconfirmed settings; that one is rolled back, this one confirmed, and those settings are in the profile and in effect for good, in a run of own steps that is transactional and fully undone but not serial |
| `TransactionBoundaries.UpdateIsLost` | src/dbus/interfaces/network-manager/network-settings.service.ts:132-149 | from every initial state, a request that had read the profile before another one was confirmed offers its edit of the older profile over the confirmed settings, in such a run |
| `TransactionBoundaries.EditsDiffer` | src/dbus/interfaces/network-manager/network-settings.service.ts:134-135 | such edits exist: two changes of one profile with different results, both different from it |
| `NetworkTransactions.TimeoutRestores` | src/dbus/interfaces/network-manager/network-settings.service.ts:98-104 | whatever ran since a request created its checkpoint, its timeout puts back the profile and the applied connection of that moment, as a new version |
| `NetworkTransactions.SnapshotStays` | src/dbus/interfaces/network-manager/network-settings.service.ts:137-138 | over any run the snapshot of a live checkpoint does not change |
| `NetworkTransactions.CommitIsPrecise` | src/dbus/interfaces/network-manager/network-settings.service.ts:57-65 | in every run, a commit with the id a request holds ends that request's checkpoint if it is live, no other checkpoint, and changes nothing else |
| `NetworkTransactions.ReapplyIsCompareAndSwap` | src/dbus/interfaces/network-manager/network-settings.service.ts:151-163 | through any run between the reading of the version and the re-apply, it takes effect if and only if the version is unchanged; then nothing was applied in between and the request's settings are applied, else nothing changes |
| `NetworkTransactions.SameVersionMeansUntouched` | src/dbus/interfaces/network-manager/network-settings.service.ts:151-152 | if a run ends with the version it began with, the applied connection was the same at every point of it |
| `NetworkTransactions.RollbackDisarmsReapply` | src/dbus/interfaces/network-manager/network-settings.service.ts:155-163 | a rollback at any point after the version was read makes the pending re-apply fail without effect, whatever else runs before and after |
| `NetworkTransactions.AtMostOneReapply` | src/dbus/interfaces/network-manager/network-settings.service.ts:155-163 | of two requests holding one version of a device, once one re-apply took effect the other's fails without effect, at any later time |
| `NetworkTransactions.PersistAfterCheckpoint` | src/dbus/interfaces/network-manager/network-settings.service.ts:137-149 | in every run each profile write comes after a checkpoint created by the same request on the same device |
| `NetworkTransactions.FailedRequestChangedNothing` | src/dbus/interfaces/network-manager/network-settings.service.ts:113-143 | in every run a request that failed before its checkpoint (unknown or inactive device, either half invalid, refusal, rejected call) changed nothing in NetworkManager at any of its steps |
| `NetworkTransactions.RunsKeepInv` | src/dbus/interfaces/network-manager/network-settings.service.ts:105-171 | every run keeps: covered writes, requests that logged their checkpoint exactly when they are past it, and an id per request that no other request holds and no other device's checkpoint can hold |
| `NetworkTransactions.RunsMove` | src/dbus/interfaces/network-manager/network-settings.service.ts:138-163 | over every run devices stay, versions never fall, an unchanged version means an unchanged applied connection, and new checkpoints have new numbers |
| `NetworkTransactions.StepMovesRequest` | src/dbus/interfaces/network-manager/network-settings.service.ts:138-143 | a step leaves the id and device of every request past its checkpoint alone, and takes a request past it only by creating one, of the profile and applied connection of that moment, on its device |
| `NetworkTransactions.LogOnlyGrows` | src/dbus/interfaces/network-manager/network-settings.service.ts:105-171 | what was logged at any point of a run stays logged, in order |
| `NetworkManager.CheckpointIdRoundTrip` | src/dbus/interfaces/network-manager/network-settings.service.ts:138-143 | cutting the id from a rebuilt path gives the id if and only if it holds no slash |
| `NetworkManager.DecimalIsInjective` | src/dbus/interfaces/network-manager/network-settings.service.ts:138-139 | checkpoints with different numbers have different names |
| `NetworkManager.CheckpointPathsAreDistinct` | src/dbus/interfaces/network-manager/network-settings.service.ts:57-58 | the id of a created checkpoint is its name, and another id rebuilds another path |
| `NetworkManager.DestroyEndsOneCheckpoint` | src/dbus/interfaces/network-manager/network-settings.service.ts:57-64 | destroying the path rebuilt from the id handed out ends that checkpoint and leaves every other device and checkpoint alone |
| `NetworkSettingsService.Service.UpdateActiveConnectionOfDevice` | src/dbus/interfaces/network-manager/network-settings.service.ts:105-171 | the answer and NetworkManager's state are those of `Answer`, a rejected `Update` or `GetAppliedConnection` included; success leaves one more re-apply waiting, with the profile and the version as they are after the write; an error leaves none |
| `NetworkSettingsService.Service.EditSettings` | src/dbus/interfaces/network-manager/network-settings.service.ts:134-135 | running both adapters gives the specified connection, and an error when a half is missing or invalid, the IPv4 one first |
| `NetworkSettingsService.Service.RunImmediate` | src/dbus/interfaces/network-manager/network-settings.service.ts:155-163 | the oldest waiting re-apply runs once with its own version and leaves the queue; a refusal changes nothing |
| `NetworkSettingsService.Service.CommitChanges` | src/dbus/interfaces/network-manager/network-settings.service.ts:57-65 | the checkpoint of the rebuilt path is destroyed, or nothing changes and the call fails |
| `NetworkSettingsService.AnswerIsAllOrNothing` | src/dbus/interfaces/network-manager/network-settings.service.ts:113-170 | NetworkManager is either as it was, and the answer is an error, or holds a new checkpoint of the old profile and nothing else new but the edited profile; success means the latter with the id that names that checkpoint, and a call rejected after the checkpoint an error with it still there to undo the write |
| `NetworkSettingsService.AnswerIffPossible` | src/dbus/interfaces/network-manager/network-settings.service.ts:113-170 | an update is answered with an id exactly when the device is known and active, both halves are there and acceptable, no checkpoint is live and no call is rejected; otherwise the first of these faults is reported |
| `NetworkSettingsService.EditFaults` | src/dbus/interfaces/network-manager/network-settings.service.ts:134-135 | which fault of an edit is reported: the IPv4 half's before the IPv6 half's, a missing address before a missing gateway |
| `NetworkSessions.SubmitIsARun` | src/dbus/interfaces/network-manager/network-settings.service.ts:105-171 | the sequential update is a run of the protocol made of a new request's own steps, with the same answer and the same state, in which it writes and reads under its own checkpoint |
| `NetworkSessions.CallsAreARun` | src/dbus/interfaces/network-manager/network-settings.service.ts:57-171 | so is every sequence of updates, re-applies, commits, timeouts and outside changes, each waiting re-apply being a pending request's |
| `NetworkSessions.SessionsAreTransactional` | src/dbus/interfaces/network-manager/network-settings.service.ts:57-171 | every such sequence, from any state without checkpoints, is transactional, fully undone and serial, with no condition |
| `NetworkSessions.SessionsAreSerial` | src/dbus/interfaces/network-manager/network-settings.service.ts:57-171 | in every session a device falls back to what its confirmed updates alone leave, one after another, and its profile is that with the open update, whatever else was tried, refused, rejected or timed out |
| `NetworkSessions.UpdateEndsEitherWay` | src/dbus/interfaces/network-manager/network-settings.service.ts:57-171 | in any session, as long as an answered update's checkpoint is live and whatever was called in between, confirming its id leaves exactly its settings in the profile and changes nothing else, and the timeout leaves the profile and the applied connection it found |
| `SessionEffects.AlwaysInStepIff` | src/dbus/interfaces/network-manager/network-settings.service.ts:137-163 | in every session, at every point, a device's profile is in effect once the waiting re-applies have run, and the snapshot of its live checkpoint would be, if and only if each update that makes a checkpoint finds the profile in effect and no other settings armed, and nothing but the profile is put into effect from outside |
| `SessionEffects.ConfirmedIsInEffect` | src/dbus/interfaces/network-manager/network-settings.service.ts:57-163 | in such a session what the confirmed updates leave, with the open one on top, is in effect once the waiting re-applies have run |
| `SessionEffects.RunningAllGetsThere` | src/dbus/interfaces/network-manager/network-settings.service.ts:155-163 | running all waiting re-applies puts into effect the settings of the first one that holds the device's version, or leaves what is there |
| `SessionEffects.ConfirmedNeverInEffect` | src/dbus/interfaces/network-manager/network-settings.service.ts:57-163 | a session without overlap after which the confirmed settings are in the profile, never in effect, and nothing waits |
| `NetworkService.UpdateThenGet` | src/device/network/network.service.ts:34-94 | after an answered update, reading the active connection gives each submitted half back as submitted (static parts erased for `auto`), and for each other half the method, gateway, first address with prefix and first dns server that were stored before; a report with both a `value` and a `signature` entry in a half is an error, and one with two such groups is read as the `value` group |
| `NetworkService.SubmitThenRead` | src/device/network/network.service.ts:37-81 | for every prior dictionary, an accepted submission reads back as specified if and only if the reported dictionary does not hold both a `value` and a `signature` key; with both, reading throws |
| `NetworkService.ReadsBack` | src/device/network/network.service.ts:37-55 | a reported dictionary that does not pass for a variant reads back as submitted, field by field |
| `NetworkService.RoundTripIff` | src/device/network/network.service.ts:64-81 | reading back is the identity exactly for a complete `manual` submission and an `auto` one without static parts |
| `NetworkService.AcceptedIff` | src/device/network/network.service.ts:64-81 | a submission is accepted exactly when it is `auto` or has an address with a prefix and a non-empty gateway |
| `NetworkService.LaterRequestWins` | src/device/network/network.service.ts:64-81 | a later accepted submission leaves nothing of an earlier one, accepted or rejected |
| `NetworkService.ConnectionReadsHalves` | src/device/network/network.service.ts:34-60 | for every profile, unwrapping it reads each of its groups as if alone, except that one with both a `value` and a `signature` group is read as the content of the former |
| `NetworkService.ReadIsOfStored` | src/device/network/network.service.ts:37-55 | for every report of stored settings, what reads is what the stored method, gateway, addresses and dns show, and an error exactly if the report passes for a variant and so hides them |
| `NetworkService.ReadsFirstOfEach` | src/device/network/network.service.ts:37-55 | of stored address and dns lists of any length, a report reads as the method, the gateway, the first address with its prefix and the first dns server, each absent when its list is empty or missing; an error exactly if the report passes for a variant |
| `NetworkService.SentIsTyped` | src/device/network/network.service.ts:64-86 | whatever is submitted, a profile of variants whose values fit their signatures is written and re-applied as one |
| `NetworkService.SubmissionReachesItsKeys` | src/device/network/network.service.ts:64-81 | a submission leaves every key but method, gateway, addresses and dns servers, and the deprecated ones, as it was, dns search domains included |
| `NetworkService.ConfirmationLink` | src/device/network/network.service.ts:88-93 | the link ends in /device/network/commit/ and the id, and the checkpoint it commits is the object of that id under NetworkManager's checkpoints |
| `NetworkService.UntouchedHalf` | src/device/network/network.service.ts:65-67 | a half not submitted shows after an update what it showed before, although deprecated keys were removed |
| `NetworkService.EditKeepsHalvesApart` | src/dbus/interfaces/network-manager/network-settings.service.ts:134-135 | an edit goes through exactly when both halves exist and are acceptable, changes each by its own submission and reaches no other group of the profile |
| `NetworkService.ConfirmationNamesTheCheckpoint` | src/device/network/network.service.ts:88-98 | the id in the confirmation URL rebuilds the checkpoint path it was cut from if and only if it holds no slash |
| `ConnectionSettingsAdapter.IpSettingsVariantAdapter.constructor` | src/dbus/interfaces/network-manager/connection-settings.adapter.ts:20-25 | `addresses`, `dns` and `routes` are gone and every other entry is kept |
| `ConnectionSettingsAdapter.IpSettingsVariantAdapter.ApplyChanges` | src/dbus/interfaces/network-manager/connection-settings.adapter.ts:27-47 | the dictionary ends as specified key by key, a rejected change reaching the dns keys only; it succeeds exactly for accepted changes, and the throw inside `setGateway` is never the error |
| `ConnectionSettingsAdapter.IpSettingsVariantAdapter.SetDnsData` | src/dbus/interfaces/network-manager/connection-settings.adapter.ts:85-97 | `dns-data` is set, removed on null or kept when left out, and no other key changes |
| `ConnectionSettingsAdapter.IpSettingsVariantAdapter.SetDnsSearch` | src/dbus/interfaces/network-manager/connection-settings.adapter.ts:100-111 | the same for `dns-search` |
| `ConnectionSettingsAdapter.IpSettingsVariantAdapter.SetDHCP` | src/dbus/interfaces/network-manager/connection-settings.adapter.ts:49-53 | the method is `auto`, addresses and gateway are gone, the rest is kept |
| `ConnectionSettingsAdapter.IpSettingsVariantAdapter.SetManual` | src/dbus/interfaces/network-manager/connection-settings.adapter.ts:55-68 | a missing address is reported before a missing gateway, either leaves the dictionary as it was; otherwise addresses, gateway and method are those given |
| `ConnectionSettingsAdapter.IpSettingsVariantAdapter.SetGateway` | src/dbus/interfaces/network-manager/connection-settings.adapter.ts:113-124 | a gateway is refused exactly when `address-data` is missing, has no content, or has one of length 0, and then nothing changes; a content without a length passes |
| `ConnectionSettingsAdapter.RunOfChanges` | src/dbus/interfaces/network-manager/connection-settings.adapter.ts:20-128 | over any sequence of changes, absent and rejected ones included, the settings end coherent if and only if they started so or some change was accepted; deprecated keys never come back and unrelated keys keep their entries |
| `ConnectionSettingsAdapter.ChangeCoherence` | src/dbus/interfaces/network-manager/connection-settings.adapter.ts:27-68 | an accepted change makes the settings coherent; a rejected one leaves every key outside the dns ones as it was |
| `ConnectionSettingsAdapter.ChangeAbsorbsItself` | src/dbus/interfaces/network-manager/connection-settings.adapter.ts:27-47 | applying a change twice equals applying it once |
| `ConnectionSettingsAdapter.ChangeOverrides` | src/dbus/interfaces/network-manager/connection-settings.adapter.ts:27-111 | an accepted change that speaks of every dns key an earlier one spoke of leaves nothing of the earlier one |
| `ConnectionSettingsAdapter.OtherMethodsAreManual` | src/dbus/interfaces/network-manager/connection-settings.adapter.ts:29-43 | every method name other than `auto`, `dhcp` among them, is accepted, rejected and stored exactly as `manual` |
| `ConnectionSettingsAdapter.ChangeSends` | src/dbus/interfaces/network-manager/connection-settings.adapter.ts:49-128 | an accepted change sends the method as a string, and for a manual one the gateway as a string and each address as a string beside its prefix as a natural number, each under its D-Bus signature, for lists of any length |
| `ConnectionSettingsAdapter.ChangeSendsDns` | src/dbus/interfaces/network-manager/connection-settings.adapter.ts:85-111 | given dns servers and search domains are sent as arrays of strings under that signature, null removes them, and left out they stay as they were |
| `ConnectionSettingsAdapter.ChangesStayTyped` | src/dbus/interfaces/network-manager/connection-settings.adapter.ts:20-128 | whatever is changed, a dictionary of variants whose values fit their signatures stays one, down to the variants inside the address list |
| `Variants.UnwrapIsStripIffProper` | src/dbus/utils.ts:18-32 | deep unwrapping takes off every variant layer and nothing else if and only if the tree has no variant directly in a variant and no misread dictionary |
| `Variants.ChildrenIffProper` | src/dbus/utils.ts:23-29 | the same for the children of an array or dictionary that is not looked through |
| `Variants.CollapsedIsNotStrip` | src/dbus/utils.ts:10-21 | a dictionary that passes for a variant never unwraps to what it stands for |
| `Variants.UnwrapKeepsShape` | src/dbus/utils.ts:18-32 | a proper tree comes out without variants, with the leaves, array lengths and dictionary keys it had at every depth |
| `Variants.UnwrapIdempotentIff` | src/dbus/utils.ts:18-32 | for every tree a second unwrapping changes nothing if and only if nothing that is, or passes for, a variant sits directly in another one where unwrapping goes |
| `Variants.UnchangedIffPlain` | src/dbus/utils.ts:18-32 | unwrapping leaves a tree alone if and only if nothing in it is, or passes for, a variant |
| `Variants.ProperIdempotentIff` | src/dbus/utils.ts:18-32 | for a proper tree a second unwrapping changes nothing if and only if the stripped tree is proper too |
| `Variants.SecondUnwrappingCollapses` | src/dbus/utils.ts:10-32 | a proper tree that a second unwrapping damages |
| `Variants.UnwrapOfWrapIff` | src/dbus/utils.ts:6-36 | unwrapping undoes the wrapping of all leaves for exactly the trees without a `value`/`signature` dictionary |
| `Variants.StripOfWrap` | src/dbus/utils.ts:6-8 | wrapping the leaves adds only variant layers and keeps properness both ways |
| `Variants.WrapCoversLeaves` | src/dbus/utils.ts:6-8 | wrapping puts every leaf under a variant of its signature and nothing else |
| `Variants.UnwrapDoesNotGrow` | src/dbus/utils.ts:18-32 | no tree nests deeper after unwrapping |
| `Variants.NestedVariantLosesOneLayer` | src/dbus/utils.ts:18-21 | a variant directly inside a variant loses exactly one layer, whatever it holds |
| `Variants.ValueSignatureDictionaryCollapses` | src/dbus/utils.ts:10-12 | a plain dictionary with both keys unwraps to its `value` |
| `UserRepository.ReadsAfterCalls` | src/datastore/user-repository/user.repository.ts:43-111 | what a read finds after a call: a call reaches the record of its login only, adds one with both stamps equal, keeps login, creation time and an unchanged hash, or takes it away, and fails exactly when it changes nothing |
| `UserRepository.UpdateChangesFields` | src/datastore/user-repository/user.repository.ts:84-98 | a successful update leaves in each of roles, description and hash the given value, or the one that was there, keeps login and creation time, and stamps the record |
| `UserRepository.CreateSetsFields` | src/datastore/user-repository/user.repository.ts:67-79 | a successful creation leaves in each field exactly what was given, with both stamps equal |
| `UserRepository.Repository.GetAll` | src/datastore/user-repository/user.repository.ts:56-62 | one new, unshared object per stored user, showing that user |
| `UserRepository.Repository.Create` | src/datastore/user-repository/user.repository.ts:67-79 | an existing login is refused and the store kept; else one record is added, with both stamps equal |
| `UserRepository.Repository.Update` | src/datastore/user-repository/user.repository.ts:84-98 | an unknown login is refused; else the given fields and the stamp change, login and creation time never |
| `UserRepository.Repository.Remove` | src/datastore/user-repository/user.repository.ts:103-111 | an unknown login is refused; else that record alone goes |
| `UserService.Service.GetAllUsers` | src/authentication/user/user.service.ts:13-18 | every user once, without a hash, in new objects: nothing in the store loses its hash |
| `UserService.Service.Create` | src/authentication/user/user.service.ts:20-29 | the admin login is refused before anything else; otherwise as the repository, with the password hashed |
| `UserService.Service.Update` | src/authentication/user/user.service.ts:31-50 | a missing and the admin login are refused; otherwise roles and description change, the hash does not |
| `UserService.Service.Remove` | src/authentication/user/user.service.ts:52-58 | the admin login is refused; otherwise as the repository |
| `UserService.Service.CreateAdmin` | src/authentication/user/user.service.ts:61-70 | the admin record is created once, with the default password and the admin role alone |
| `UserService.UpdatedUserHas` | src/authentication/user/user.service.ts:31-50 | an update succeeds exactly for a stored user who is not the admin, and then roles and description are those given, or those that were there, and the password is kept |
| `UserService.CreatedUserHas` | src/authentication/user/user.service.ts:20-29 | a creation succeeds exactly for a new login that is not the admin's, and then the record has exactly the given roles, description and password |
| `UserService.CreatedAdminHas` | src/authentication/user/user.service.ts:61-70 | the admin is created exactly if absent, with the admin role alone and the default password |
| `AuthenticationService.Authenticator.Login` | src/authentication/authentication.service.ts:24-33 | the payload carries the stored roles and stamp exactly when login and password match, else the call is unauthorized |
| `AuthenticationService.Authenticator.GetAuthenticatedUserOrThrow` | src/authentication/authentication.service.ts:86-99 | the record, or the same error for an unknown login and for a wrong password |
| `AuthenticationService.Authenticator.UpdatePassword` | src/authentication/authentication.service.ts:38-44 | the password changes only when the current one is right |
| `AuthenticationService.Authenticator.ResetAdminPassword` | src/authentication/authentication.service.ts:49-64 | fails on missing settings, then on a disabled switch, and else sets the admin's password to the default |
| `AuthenticationService.Authenticator.UpdateUserPassword` | src/authentication/authentication.service.ts:104-109 | only the hash and the stamp of that user change |
| `AuthenticationService.PasswordChangeKeepsTheRest` | src/authentication/authentication.service.ts:38-44 | a password change succeeds exactly with the current password, and then the new one is in force, the other fields but the stamp and every other record are as before |
| `AuthenticationService.LoginSays` | src/authentication/authentication.service.ts:24-33 | a login succeeds exactly with the user's password, and its token says the login, the stored roles and the stored stamp |
| `PasswordRefinement.StepRefines` | src/authentication/user/user.service.ts:13-70 | every call does to the store what it does to a plain login-to-password map, and answers the same |
| `PasswordRefinement.RunRefines` | src/authentication/authentication.service.ts:24-64 | so does every sequence of calls |
| `PasswordRefinement.LoginAfterRunIff` | src/authentication/authentication.service.ts:24-33 | after any run on any store, a login succeeds if and only if the plain map holds that password for that login |
| `PasswordRefinement.LastPasswordIsKept` | src/authentication/authentication.service.ts:104-109 | after any run the store holds, for each login, the last password a successful call set, and none after a removal |
| `PasswordRefinement.LoginIffLastPassword` | src/authentication/authentication.service.ts:24-64 | after any run, a login succeeds if and only if the login exists and the password is the last one set for it |
| `PasswordRefinement.ComparesFirst72Bytes` | src/authentication/crypto/crypto.service.ts:25-31 | a comparison succeeds exactly when the passwords agree in their first 72 bytes |
| `PasswordRefinement.ShortPasswordsAreExact` | src/authentication/crypto/crypto.service.ts:25-31 | within 72 bytes a comparison succeeds exactly for the hashed password |
| `UserInterleaving.EveryInterleavingKeepsInv` | src/datastore/user-repository/user.repository.ts:67-111 | under every interleaving each stored record carries the login it is stored under, and the admin record, once there, is there at every later point with exactly the admin role |
| `UserInterleaving.StepKeepsInv` | src/authentication/user/user.service.ts:31-70 | each stretch between two awaits keeps that, over snapshots however stale |
| `UserInterleaving.MonotoneClockKeepsOrder` | src/datastore/user-repository/user.repository.ts:75-95 | in every interleaving in which the clock is never set back, no record is modified before it is created |
| `UserInterleaving.AlwaysInOrderIff` | src/datastore/user-repository/user.repository.ts:75-95 | from records in order, under every interleaving and every clock, each stored, read and queued record is in order at every point of the run if and only if each edit is stamped at a clock not below its record's creation |
| `UserInterleaving.ModifiedBeforeCreated` | src/datastore/user-repository/user.repository.ts:75-95 | a run that stores a record modified before it was created: the clock is set back between creation and edit |
| `UserInterleaving.AloneIsSequential` | src/datastore/user-repository/user.repository.ts:67-111 | a call nobody overlaps ends with the store the sequential service leaves |
| `UserInterleaving.StaleEditRevertsPassword` | src/datastore/user-repository/user.repository.ts:88-95 | a password change is committed, and the edit that had read the record before then writes the old hash back |
| `UserInterleaving.QueuedWriteResurrects` | src/datastore/user-repository/user.repository.ts:95-109 | a write committed after a removal brings the removed user back |
| `AuthenticationGuard.GuardDecides` | src/authentication/authentication.guard.ts:30-96 | for every route, header and set of live tokens: allowed exactly on public routes (the handler's mark if there is one, else the class's) and for the bearer of a live token that the policy lets in, denied exactly for the bearer of one that it does not, and not authenticated otherwise |
| `AuthenticationGuard.AgreesWithRecordAtLogin` | src/authentication/authentication.guard.ts:30-91 | for every store and route and whatever happens in between, the token minted at login, while valid, is accepted if and only if the plain policy holds of the record at login time |
| `AuthenticationGuard.AcceptedMeansMinted` | src/authentication/authentication.guard.ts:38-48 | in every run, whoever passes a non-public route sent a token that a successful login minted for a record the policy lets in |
| `AuthenticationGuard.TokensComeFromLogins` | src/authentication/authentication.service.ts:24-33 | in every run each live token says what a login found in the store of that moment |
| `AuthenticationGuard.TokenStays` | src/authentication/authentication.guard.ts:46-48 | over any run a token that does not expire keeps its payload |
| `AuthenticationGuard.GuardDecidesByPolicy` | src/authentication/authentication.guard.ts:59-91 | with a live token sent as Bearer header the guard allows exactly what the policy allows: public, admin login, admin role, or a role shared with handler or class |
| `AuthenticationGuard.AccessIsMonotone` | src/authentication/authentication.guard.ts:59-91 | more roles never lose access |
| `AuthenticationGuard.BearerHeaderIff` | src/authentication/authentication.guard.ts:93-96 | a token is read from exactly the headers made of `Bearer`, one space and the token, alone or followed by a space and anything |
| `AuthenticationGuard.Intersection` | src/authentication/authentication.guard.ts:75 | a role is in the result exactly when it is in both lists |
| `Settings.SettingsRepository.Get` | src/datastore/settings-repository/settings.repository.ts:38-52 | the stored object itself, or an error when there is none |
| `Settings.SettingsRepository.IsInitialized` | src/datastore/settings-repository/settings.repository.ts:57-59 | true exactly for stored keys |
| `Settings.SettingsRepository.ResetDefaults` | src/datastore/settings-repository/settings.repository.ts:64-71 | the defaults object is stored by reference, other keys are kept |
| `Settings.SettingsRepository.Update` | src/datastore/settings-repository/settings.repository.ts:78-87 | the data is merged into a new object, so no stored and no defaults object is written to; a missing key is an error and changes nothing |
| `Settings.UpdateOnFields` | src/datastore/settings-repository/settings.repository.ts:78-87 | field by field an update leaves the new value where there is one and what was there elsewhere, touches no other setting, and initialises none |
| `Settings.MaintenanceService.ResetAllSettingsToDefaults` | src/datastore/maintenance/maintenance.service.ts:11-30 | the loop leaves the store and the answer its specification gives, and the defaults as they were |
| `Settings.CarefulReset` | src/datastore/maintenance/maintenance.service.ts:14-27 | without force exactly the keys before the first initialised one hold defaults, no initialised setting is touched, and it succeeds if and only if none was initialised |
| `Settings.CarefulIsForcedPrefix` | src/datastore/maintenance/maintenance.service.ts:14-27 | without force the loop is the forced loop over the keys before the first initialised one |
| `Settings.ForcedReset` | src/datastore/maintenance/maintenance.service.ts:14-27 | with force it never fails, every key holds its default and nothing else changes |
| `Settings.Uninitialised` | src/datastore/maintenance/maintenance.service.ts:16-21 | finds the first initialised key |
| `Settings.ResetAfterUpdates` | src/datastore/settings-repository/settings.repository.ts:64-87 | after any sequence of partial updates, of objects that may be the defaults themselves, a forced reset brings back the defaults of the start |
| `TimeDate.SystemClock.SetSystemDate` | src/dbus/interfaces/timedate1/timedate1.service.ts:31-36 | for every valid date the microseconds sent fit a signed 64-bit integer and are at most 512 off; an invalid date is an error and sends nothing |
| `TimeDate.SetThenGet` | src/dbus/interfaces/timedate1/timedate1.service.ts:16-36 | for every valid date, before 1970 too, setting it and reading it back gives it exactly, or one millisecond nearer to 1970 if the product rounds down |
| `TimeDate.ReadBackIff` | src/dbus/interfaces/timedate1/timedate1.service.ts:22-35 | for every non-negative time value, what is set reads back exactly unless the product rounds down, and is then one millisecond short |
| `TimeDate.TimeErrorBound` | src/dbus/interfaces/timedate1/timedate1.service.ts:34-35 | the product is off by at most 512 microseconds, is in range, and falls short exactly under the given condition |
| `TimeDate.ToDoubleIsNearest` | src/dbus/interfaces/timedate1/timedate1.service.ts:34 | the modelled product is a double, and no double is nearer to the exact one |
| `TimeDate.TiesGoToEven` | src/dbus/interfaces/timedate1/timedate1.service.ts:34 | half way between two doubles the product is the one with the even mantissa |
| `TimeDate.ExactUpTo56Bits` | src/dbus/interfaces/timedate1/timedate1.service.ts:34 | below 2^56 microseconds nothing is lost |
| `TimeDate.MillisecondLost` | src/dbus/interfaces/timedate1/timedate1.service.ts:22-35 | a date just above that bound comes back one millisecond short |
| `DateTimeService.Service.SetNtp` | src/device/date-time/date-time.service.ts:64-73 | a non-empty server overwrites the configuration even when the restart then fails, in which case NTP is not switched |
| `DateTimeService.Service.GetNtpAddressFromConfig` | src/device/date-time/date-time.service.ts:78-93 | the captured address, or none when the file cannot be read or does not match |
| `DateTimeService.FirstMatch` | src/device/date-time/date-time.service.ts:18 | the earliest position at which the expression matches, or none if there is no such position |
| `DateTimeService.TemplateMatchesAfterHeader` | src/device/date-time/date-time.service.ts:10-19 | whatever the address, the first match in the template is the key's own line, not the comment and not FallbackNTP |
| `DateTimeService.TemplateLines` | src/device/date-time/date-time.service.ts:10-17 | the six lines of the written file: the comment, the [Time] section, the address under its key, the four fallback servers |
| `DateTimeService.ReadsFirstKeyLine` | src/device/date-time/date-time.service.ts:78-93 | in any file, the rest of the first line that begins with `NTP=` is read, wherever lines may end, and nothing if there is none |
| `DateTimeService.ReadOfTemplate` | src/device/date-time/date-time.service.ts:10-19 | a written address reads back up to its first line terminator |
| `DateTimeService.RoundTripIff` | src/device/date-time/date-time.service.ts:78-105 | it reads back whole if and only if it holds no line terminator |
| `DateTimeService.ReadsLastWritten` | src/device/date-time/date-time.service.ts:64-105 | after any sequence of calls the last non-empty address is read, or what the file held at the start |
| `Json.MergeIsNoOpIff` | src/open-api/open-api.service.ts:59 | a deep merge changes nothing if and only if the destination already holds all the source brings |
| `Json.MergeAbsorbs` | src/open-api/open-api.service.ts:59 | after a deep merge the destination holds all the source brings |
| `Json.MergeIsIdempotent` | src/open-api/open-api.service.ts:59 | merging the same source twice is merging it once |
| `OpenApi.Document.AddDefaultResponses` | src/open-api/open-api.service.ts:58-80 | the loop over all paths completes every one of them, and the components are merged if there are any |
| `OpenApi.Document.CompletePath` | src/open-api/open-api.service.ts:62-78 | the loop over the methods completes exactly the operations under a method name |
| `OpenApi.Document.FixBrokenEnumArrays` | src/open-api/open-api.service.ts:38-54 | the nested loops fix every property of every object schema and nothing else |
| `OpenApi.ResponsesAfterwards` | src/open-api/open-api.service.ts:61-79 | every operation keeps each response it had and gains one for exactly the missing statuses due to it: 500 always, 400 unless a get, 401 when secured |
| `OpenApi.AddedReferencesResolveIff` | src/open-api/constants.ts:54-67 | every added reference, and the reference to the error schema, resolves in the final document if and only if it had components |
| `OpenApi.AddedResponseRefersToError` | src/open-api/constants.ts:31-62 | in the final document the response an added reference points to holds the reference to the error schema, if and only if the document had no array on the way there |
| `Json.MergeReaches` | src/open-api/open-api.service.ts:59 | a text of the source is found in the merged tree at its path if and only if the destination has no array on the way |
| `OpenApi.NoBrokenEnums` | src/open-api/open-api.service.ts:41-51 | afterwards no property of an object schema has both items and enum |
| `OpenApi.PropertiesAfterwards` | src/open-api/open-api.service.ts:38-54 | key by key, the fix takes an `enum` beside `items` off a property of an object schema, and nothing else off any property or schema |
| `OpenApi.AddedComponentsSay` | src/open-api/constants.ts:18-67 | the descriptions and examples of the three added responses, and the error schema |
| `Json.MergeSpares` | src/open-api/open-api.service.ts:59 | what the source of a merge does not speak of is found as it was |
| `OpenApi.WithDefaultsIsIdempotent` | src/open-api/open-api.service.ts:61-79 | completing the operations twice is completing them once |
| `OpenApi.FixedComponentsTwice` | src/open-api/open-api.service.ts:38-54 | fixing the schemas twice is fixing them once |
| `OpenApi.RewrittenAbsorbs` | src/open-api/open-api.service.ts:28-29 | after both passes the components still hold all the additional ones: the second pass takes nothing off the error schema |
| `OpenApi.RewriteIsIdempotent` | src/open-api/open-api.service.ts:28-29 | running both passes again changes neither operations nor components |
| `DpkgCommand.ParseDpkgOutputLine` | src/shell-command/command-services/dpkg-command.service.ts:27-36 | the record the loop fills holds each value under its field's name, undefined where the line is too short |
| `DpkgCommand.GetInstalledPackages` | src/shell-command/command-services/dpkg-command.service.ts:49-57 | one record for each piece between newlines, in order |
| `DpkgCommand.PackagesRoundTripIff` | src/shell-command/command-services/dpkg-command.service.ts:22-57 | parsing what was printed gives the packages back, each field under its name, and exactly one phantom record, if and only if no field holds a separator or a newline |
| `DpkgCommand.ColumnsByName` | src/shell-command/command-services/dpkg-command.service.ts:27-36 | each of the six columns is found under its own name, in the printed order, and undefined where the line is too short |
| `DpkgCommand.ShowFormat` | src/shell-command/command-services/dpkg-command.service.ts:22-25 | the argument asks for the six columns in that order, with the separator the parser splits at |
| `DpkgCommand.LinesOfPrinted` | src/shell-command/command-services/dpkg-command.service.ts:22-25 | the printed list splits into one line per package and one empty line |
| `RpiConfigCommand.Service.GetSupportedConfigurations` | src/shell-command/command-services/rpi-nest-config-command.service.ts:67-81 | the non-empty words after the phrase in the usage text, none when the phrase is absent |
| `RpiConfigCommand.Service.ExecuteCommand` | src/shell-command/command-services/rpi-nest-config-command.service.ts:112-136 | an empty id is refused before the tool is called, a usage message after it; otherwise the output of the pushed arguments without the white space around it |
| `RpiConfigCommand.Service.GetConfigurationStates` | src/shell-command/command-services/rpi-nest-config-command.service.ts:91-94 | the parsed words of the answer, or the first error |
| `RpiConfigCommand.Service.GetAllSupportedConfigurations` | src/device/device-config/device-config.service.ts:13-21 | each supported id with the state at its index, if there is one |
| `RpiConfigCommand.SupportedIdsAreWords` | src/shell-command/command-services/rpi-nest-config-command.service.ts:73-80 | supported ids are never empty and hold no space and no newline, whatever the usage text |
| `RpiConfigCommand.SupportedIdsAreListed` | src/shell-command/command-services/rpi-nest-config-command.service.ts:67-81 | the ids are the words that follow the phrase where it first occurs, in their order, blanks left out |
| `RpiConfigCommand.NoPhraseNoIds` | src/shell-command/command-services/rpi-nest-config-command.service.ts:74-80 | without the phrase there are none |
| `RpiConfigCommand.BrokenLine` | src/shell-command/command-services/rpi-nest-config-command.service.ts:77 | a line break is taken out, so that the words it parts become one |
| `RpiConfigCommand.ExecutesAs` | src/shell-command/command-services/rpi-nest-config-command.service.ts:112-136 | which arguments the tool is called with, an empty value left out, and what becomes of its answer |
| `RpiConfigCommand.TrimTakesEndsOff` | src/shell-command/command-services/rpi-nest-config-command.service.ts:135 | trimming takes white space off both ends and nothing else |
| `RpiConfigCommand.StatusMeans` | src/shell-command/command-services/rpi-nest-config-command.service.ts:38-59 | 2 is not available, 0 disabled, 1 enabled, and any other text an error |
| `RpiConfigCommand.StatesOfWords` | src/shell-command/command-services/rpi-nest-config-command.service.ts:91-94 | for any non-empty list of non-empty, space-free ids, joining, asking, splitting and parsing gives each id its own state at its index |
| `RpiConfigCommand.EverySupportedHasItsState` | src/device/device-config/device-config.service.ts:13-21 | end to end every supported id is listed with its own state; with no supported id the call is refused |
| `Strings.JoinOfSplit` | src/authentication/authentication.guard.ts:94 | joining the pieces of a split gives the text back |
| `Strings.SplitOfJoinIff` | src/shell-command/command-services/dpkg-command.service.ts:24-28 | splitting a join gives the list back exactly for the non-empty lists whose parts are free of the separator |
| `Strings.LastSegmentIff` | src/dbus/interfaces/network-manager/network-settings.service.ts:139 | the text after a slash is the last segment exactly when it holds no slash |

## Left out

- D-Bus transport and generated proxies, process spawning, file streams, the LMDB engine, bcrypt and JWT internals: foreign code, given only the contracts listed above.
- Controllers, modules, dependency injection, CLI wrappers, mocks and the validation decorators of request objects: nothing to prove; the model accepts any text as an address.
- `assignVariantDeep` (src/dbus/utils.ts:38-53): it has no caller in the code modelled here.
- Freedom from lost updates and from resurrected users in overlapping calls on the user store: the code reads before it writes without a lock, so they do not hold; the two user lemmas named above mark the boundary. For overlapping network updates the exact condition is given instead.
- TransactionRefinement.TransactionalIff: profile changes made by other programs are not modelled; changes of the applied connection from elsewhere are (`Activate`).
- NetworkSettingsService.Service.UpdateActiveConnectionOfDevice: a call rejected before the checkpoint is modelled in the transition system (`Fail`), not in this sequential class; it changes nothing.
- ConnectionSettingsAdapter.IpSettingsVariantAdapter.SetDHCP: the null branches of `setAddressData` and `setGateway` appear as removals of the key; `setIgnoreAutoDns` has no caller.
- NetworkService.SubmitThenRead: nulls for single properties of a submission are not modelled, only left-out ones.
- NetworkService.ConfirmationNamesTheCheckpoint: percent-encoding in URLs is not modelled; checkpoint names are digits.
- TimeDate.SystemClock.SetSystemDate: what the system's own service makes of the microseconds it is sent, such as refusing dates before 1970.
- DateTimeService: the check in `setDateTime` that NTP is off, time zones, and file permissions.
- OpenApi: keys that are not methods are kept but not interpreted, and lodash's treatment of array-like objects and of named properties on arrays is not modelled.
- DpkgCommand: how dpkg-query reads the show format is taken as printing the fields joined by the separator with a newline after each package.
- RpiConfigCommand: `getConfigurationStatus`, enabling and disabling, and characters in ids that mean something to the shell.
- `SosReportService`, the df, uptime and vcgencmd parsers, polkit rules, syslog selection, environment validation, listing of network devices: thin wrappers or single branches that would only add easy members.
