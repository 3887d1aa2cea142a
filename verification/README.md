# Verification of space-daemon

A Dafny model of the protocols, trees, indexes and codecs of the daemon, with
proofs of what they keep. `dafny verify dfyconfig.toml` checks everything.

| module | models |
|---|---|
| `Wrappers`, `Sums` (Common.dfy) | options, results, sums over sequences |
| `PullRace`, `PullJam`, `PullOutcome` | the goroutines of `racePullFile` as a transition system, where a run of them can stop, and what it returns |
| `FileCache`, `PullHistory` | the three pullers and the `file_cache` entries, over histories of changes |
| `SourceTree`, `GetTotals` | a file tree, and the nested goroutines of `getTotals` |
| `Paths`, `Buckets`, `AddItems`, `UploadLaws`, `UploadReports`, `UploadPlaces` | uploading trees, what the streamed results add up to, which nodes they report, and where the nodes go |
| `Listing`, `ListedPaths`, `RoundTrip` | `ListDir` and `ListDirs`, the pattern for reported paths, and listing what was uploaded |
| `ProgressStream` | the gRPC handler that turns results into progress |
| `Sharing` | one user's share, unshare and answer calls, write by write |
| `SharingRuns`, `SharingOrigins`, `SharingKeys`, `Revocations`, `Invitations` | many users' calls, interleaved and failing: messages, where records come from, keys, revocations, answers |
| `SharingRoles` | roles and messages after calls made one after another, each complete or cut short |
| `SharingOverlaps` | roles and messages at every moment of runs in which calls overlap |
| `ShareThenAccept` | a share and the answer to it: what the recipient then holds |
| `SharingCases` | concrete runs that reach the bad cases |
| `OpenFiles`, `OpenEdits` | the index of opened files, `OpenFile`, and where edits of opened files go |
| `Codecs`, `Keychain`, `AppTokens`, `Vault` | key pairs in ring, store and cache, app tokens, backups |

Objects whose methods change fields are classes whose methods are proved
against functions of the old state; the laws are proved about those functions.
Goroutines are steps of a transition system: a send on an unbuffered channel
and its receive are one step, a goroutine that has not been started is one that
has not been scheduled, and an operation that Go answers with a panic is a step
that is proved impossible, or an error value (`NoSeparator`). Writes that
can fail take from the caller how many of them succeed, or which of them fail,
and every theorem is for all such choices.

## What the proofs found

Each of these is a theorem below, with the exact condition.

- The pull race can stop for ever: a puller that takes the mutex between the
  answer to the caller and the caller's close blocks at its send while the
  caller waits for the mutex (`PullJam.FinishesIffNoLateLock`, `PullJam.JamIsReachable`).
- The test at core/space/services/services_fs.go:654 compares a name with a path: the
  relative source `a` loses its child `a`, which was counted (`UploadLaws.ResultsMatchTotals`).
- A cache entry filed after the item changed is served as the new item (`FileCache.HistoryKeepsTruthIff`,
  `FileCache.StaleFillIsServed`).
- Folders named `ipfs` or `ipns`, except at the top of a bucket, shorten the listed
  paths below them (`RoundTrip.ReportedPathsIff`, `RoundTrip.PrefixedPathIsCut`).
- Sharing a rejected file behind one that has a key pushes its role under the other's key
  and sends an empty key for it; sharing it first fails before any role or message
  (`SharingKeys.NextShareRightIff`, `SharingKeys.PushKeyRightIff`, `SharingCases.RejectedFileIsReshared`,
  `SharingCases.RejectedFileIsRefused`).
- Naming a foreign database with the personal bucket sends one's own key for it, if the hub
  takes the role push (`SharingKeys.ResolveRightIff`, `SharingCases.ForeignDatabaseIsShared`).
- Accepting a second invitation for a file rejected before reports success and
  leaves it rejected (`Invitations.AcceptTakesEffectIff`, `SharingCases.AcceptHasNoEffect`).
- A share that is cut short can leave a role that no message announced
  (`SharingRoles.RoleMatchesIff`, `SharingCases.CutShareIsSilent`).
- A share and an unshare that overlap can both succeed and leave a user without the role
  that the user's last message announces. When a call delivers its message, the two agree
  exactly when the last role pushed by any call is of its own kind
  (`SharingOverlaps.DeliveryMatchesIff`, `SharingOverlaps.RunMatchesIff`, `SharingCases.OverlapDisagrees`).
- An invitation whose files the user all has records of stays pending after an accept or
  reject that reports success, and can be answered again (`Invitations.SuccessStaysPendingIff`,
  `SharingCases.AcceptStaysPending`).
- A revocation deletes a record of the recipient exactly when one of its paths names the
  record's file and key and a bucket whose key on the hub is the mirror slug itself;
  otherwise the record stays (`Revocations.RevocationDeletesIff`, `SharingCases.RevokedFileIsKept`).
- An accept and a reject of one invitation that overlap can leave records that disagree
  (`Invitations.RecordsAgree`, `SharingCases.OpposedAnswersDisagree`).
- Removing the local copy of an opened file of another user's bucket deletes the item at that
  path of an own bucket instead (`OpenEdits.RemovalReachesIff`).
- A first store of a master token that stops after its second write blocks every later one,
  though the ring holds no master entry (`AppTokens.CutMasterStore`).
- A signature can still be made after a delete whose ring removal failed
  (`Keychain.SignsAfterDeleteIff`).
- Every created folder lists a `.keep` file, which is not among the meta names
  (core/textile/utils/utils.go:148-154); the round trip states it.

## Model

| member | source | states |
|---|---|---|
| `PullRace.StepInv` | core/textile/secure_bucket_client.go:295-386 | each step of a puller, the collector or the caller keeps: the mutex is with the one puller inside the critical section, every puller reports once, the two counters equal the reports tallied, and the nil response is sent only when no puller ever delivered |
| `PullRace.NoPanicStep` | core/textile/secure_bucket_client.go:303-378 | in a state with the invariant no send on a closed `pullSuccess` or `errc` is possible |
| `PullRace.NeverPanics` | core/textile/secure_bucket_client.go:303-378 | for any number of pullers and every interleaving, nothing is sent on a closed channel and neither channel is closed twice |
| `PullRace.ClosesOnce` | core/textile/secure_bucket_client.go:303-378 | whenever a goroutine closes one of the two channels it is open, so neither is closed twice |
| `PullRace.StepDecreases` | core/textile/secure_bucket_client.go:326-386 | every step of every goroutine decreases one measure |
| `PullRace.RunsAreBounded` | core/textile/secure_bucket_client.go:295-386 | no run is longer than the measure of its first state |
| `PullJam.Progress` | core/textile/secure_bucket_client.go:303-386 | a reachable state that is neither final nor the jam has a step of the call itself that can be taken, without the parent cancelling |
| `PullJam.StuckIsFinalOrJam` | core/textile/secure_bucket_client.go:303-350 | a run that cannot go on has either finished completely or stands exactly in the jam: a second successful puller at its send with the mutex, the caller waiting for that mutex |
| `PullJam.DoomedIffLateLock` | core/textile/secure_bucket_client.go:303-348 | at every point of a run the mutex is with a puller that will block for ever exactly when some puller took it after the caller was answered and before the caller closed the channel |
| `PullJam.FinishesIffNoLateLock` | core/textile/secure_bucket_client.go:303-348 | a maximal run finishes if and only if no puller takes the mutex in that window |
| `PullJam.OnePasserFinishes` | core/textile/secure_bucket_client.go:338-347 | when at most one puller passes the context check, every maximal run finishes |
| `PullJam.JamIsReachable` | core/textile/secure_bucket_client.go:295-381 | with the three pullers of the code there is a run that copies the file and then jams |
| `PullRace.DecidedOutcome` | core/textile/secure_bucket_client.go:357-404 | the call returns a pull error if and only if every puller reported an error, and then one that was reported; otherwise the file used is that of a puller whose pull succeeded |
| `PullRace.SucceedsByEnding` | core/textile/secure_bucket_client.go:326-336 | a pull turns successful only by ending, and its file is then what it had written |
| `PullRace.FileFrozen` | core/textile/secure_bucket_client.go:326-336 | the file of a successful puller is never written again, so no partial bytes are copied out |
| `PullOutcome.ReportsHaveCauses` | core/textile/secure_bucket_client.go:326-346 | at every moment of every run the error a puller reports is the one its pull ended with, or the cancellation of a call in which its pull had succeeded |
| `PullOutcome.ReturnsACause` | core/textile/secure_bucket_client.go:357-390 | a pull error that the call returns is the last one that was sent on `errc`, and has such a cause in some puller |
| `PullOutcome.CopiedIff` | core/textile/secure_bucket_client.go:392-447 | the outcome is a copied file exactly when the run took a copy step that succeeded, and a failed copy exactly when it took one that failed |
| `PullOutcome.HeardIff` | core/textile/secure_bucket_client.go:346-387 | the caller has heard a puller exactly when that puller's delivery was taken |
| `PullOutcome.FileIsWritten` | core/textile/secure_bucket_client.go:326-331 | a puller's file is at every moment all that it has written, in order |
| `PullOutcome.CopiesWhatWasWritten` | core/textile/secure_bucket_client.go:392-404 | what is copied out is all that the puller whose delivery was taken has written, in order |
| `FileCache.FillKeepsTruthIff` | core/textile/secure_bucket_client.go:422-442 | filling keeps every entry equal to the content of its cid exactly when the path still has the content that was pulled |
| `FileCache.HistoryKeepsTruthIff` | core/textile/secure_bucket_client.go:422-514 | over any history of item changes, lost blocks, damaged entries and fills, the cache is true at every moment if and only if no fill files bytes other than those the path has at that moment |
| `FileCache.CacheStaysTrue` | core/textile/secure_bucket_client.go:295-514 | over any history with any number of overlapping calls of the race, each fill being the end of a call that copied what it files, if the item of each call does not change while the call lasts then every entry is true at every moment |
| `FileCache.CopiesTheItem` | core/textile/secure_bucket_client.go:326-404 | in such worlds the bytes a race copies out are the item's, whichever puller wins |
| `FileCache.StaleFillIsServed` | core/textile/secure_bucket_client.go:422-442 | an item that changes between pull and fill makes later cached pulls return the old content |
| `FileCache.SuccessStep` | core/textile/secure_bucket_client.go:326-336 | a puller that has succeeded did so at a step of its own, with the file it then had |
| `FileCache.RaceRefinesClientPull` | core/textile/secure_bucket_client.go:295-514 | in such a history what any call copies out is what a plain client pull gives at every moment of the call, and a pull from the cache never gives anything else |
| `PullHistory.ClientPullsIff` | core/textile/secure_bucket_client.go:464-475 | after any history a client pull gives exactly the content of the item the path got last, and fails without one |
| `PullHistory.DhtPullsIff` | core/textile/secure_bucket_client.go:516-556 | after any history the network pull succeeds exactly when the path has an item and the network was last said to serve its cid, then gives what the client pull gives, and otherwise fails with the error of what is missing |
| `PullHistory.FilledIsServed` | core/textile/secure_bucket_client.go:422-514 | right after a fill the cache puller gives the bytes that were filed |
| `PullHistory.StaysCachedIff` | core/textile/secure_bucket_client.go:479-514 | an event leaves a path its cached file exactly when the item stays or has the same entry, the entry is not lost or filed anew, and the block stays |
| `PullHistory.CachedStaysServed` | core/textile/secure_bucket_client.go:479-514 | over any history of such events the cache puller goes on giving those bytes |
| `PullHistory.LostIsNotServed` | core/textile/secure_bucket_client.go:479-514 | how the cache puller fails right after the entry is lost or damaged, the item removed, or the block lost or replaced by a folder |
| `PullHistory.LocalPullsIff` | core/textile/secure_bucket_client.go:479-514 | the cache puller gives something exactly when the path's item has an entry for a local file that is there |
| `PullHistory.FilledWithoutItem` | core/textile/secure_bucket_client.go:422-442 | a fill for a path whose item is gone leaves the block and files nothing |
| `PullHistory.PullersInOrder` | core/textile/secure_bucket_client.go:295-297 | the first puller needs the path's file to be cached, the second the network to serve its cid, the third only the item |
| `GetTotals.StepInv` | core/space/services/services_fs.go:496-585 | every step at every recursion level keeps the accounts: what the collector has is what the workers have sent, and the channel is closed only after all workers |
| `GetTotals.NeverPanics` | core/space/services/services_fs.go:501-576 | in every interleaving, at every depth, no goroutine sends on a closed channel |
| `GetTotals.NeverSendsOnClosed` | core/space/services/services_fs.go:501-576 | no step of any run, at any depth, sends on a closed channel or closes one that is closed |
| `GetTotals.StepDecreases` | core/space/services/services_fs.go:496-585 | every step at any depth decreases the work left in the forest |
| `GetTotals.Progress` | core/space/services/services_fs.go:496-585 | a level that has not returned can take a step |
| `GetTotals.AlwaysReturns` | core/space/services/services_fs.go:496-585 | every run is bounded by the size of the forest and ends with a return |
| `GetTotals.ReturnsTheCount` | core/space/services/services_fs.go:496-585 | whatever the interleaving, the result is an error if and only if some read or stat in the forest fails, and otherwise the node count and the sum of the file sizes |
| `AddItems.FolderSubItems` | core/space/services/services_fs.go:646-657 | the children handed on: all but one named like the whole source path |
| `AddItems.RemoveDuplicates` | core/space/services/fs_utils.go:29-46 | the loop with its map of encountered paths keeps first occurrences in order |
| `AddItems.DedupKeepsEachOnce` | core/space/services/fs_utils.go:29-46 | the result holds each path of the input exactly once and nothing else |
| `AddItems.DedupKeepsOrder` | core/space/services/fs_utils.go:29-46 | in the order in which the paths stand first |
| `UploadLaws.Conservation` | core/space/services/services_fs.go:587-661 | on a readable tree, under any creation and upload failures, every counted node streams one result, lies below a folder that could not be created, or is skipped |
| `UploadLaws.SkippedAllIff` | core/space/services/services_fs.go:653-657 | nothing is skipped exactly when no created source folder has a child named like its whole source path |
| `UploadLaws.ResultsMatchTotals` | core/space/services/services_fs.go:496-661 | the results number `TotalFiles` minus the descendants of the failed folders exactly under that condition, whichever interleaving computed the totals |
| `UploadLaws.SelfNamedChildIsLost` | core/space/services/services_fs.go:653-657 | source folder `a` with a file `a`: two nodes are counted and one result is streamed |
| `UploadLaws.BytesMatchTotals` | core/space/services/services_fs.go:496-661 | the result bytes never exceed `TotalBytes`, and are equal to it when nothing fails and nothing is skipped |
| `UploadReports.TriedAllIff` | core/space/services/services_fs.go:587-661 | the nodes that are tried are exactly those reached from the sources through folders that are created and read, passing over self-named children |
| `UploadReports.ResultsReportTheTree` | core/space/services/services_fs.go:587-700 | the results without an error are exactly the files that upload, with their sizes, and the folders that are created; those with one exactly the tried nodes that did not arrive and the folders that could not be read; each under its own source path, in the order of trying |
| `UploadReports.ResultIff` | core/space/services/services_fs.go:587-700 | a success is streamed for a path exactly when a tried node there arrives, and a failure exactly when one there goes wrong |
| `UploadReports.ClientSeesTheTree` | grpc/handlers.go:196-260 | the stream of an upload that is not cancelled has a message without an error for exactly the nodes that arrive and one with an error for exactly those that go wrong, under their paths and in order, and ends at the bytes of what arrived |
| `UploadReports.MessagesTellTruth` | grpc/handlers.go:196-260 | at any moment of any stream, cancelled or not, each message names a tried node that arrived or went wrong as the message says |
| `UploadPlaces.PushesAreThePlaces` | core/space/services/services_fs.go:614-700 | whatever fails, a source pushes exactly the files that were not refused, with their sizes, and a keep file per created folder, in order, each at its path below the source's parent directory, below the target |
| `UploadPlaces.AllPushesAreThePlaces` | core/space/services/services_fs.go:587-700 | the same for all sources |
| `Buckets.InsertIsGraft` | core/textile/bucket/bucket_file.go:63-89 | pushing a file adds one entry to the folder above it and creates the folders on the way |
| `Buckets.GraftBelow` | core/textile/bucket/bucket_dir.go:42-53 | filling a folder that was not there is adding that folder with its content |
| `Paths.ComponentsOfChild` | core/textile/bucket/crypto/crypto.go:36-61 | the path string made for a child leads to the child of the folder, also below the empty path and below a lone slash |
| `Paths.PathNames` | core/textile/bucket/crypto/crypto.go:36-61 | the loop over the parts of a path gives its names, passing over empty parts |
| `Paths.CleaningKeepsComponents` | core/textile/secure_bucket_client.go:276-281 | taking off the leading slash does not change where a path leads |
| `Listing.ListDirAtPath` | core/space/services/services_fs.go:165-259 | the recursive listing by path strings is the listing of the tree at that path, and there is one exactly when the path exists |
| `Listing.ListItem` | core/space/services/services_fs.go:192-256 | what one item adds: nothing for a meta name, else itself with its reported path and, when asked for, everything below it |
| `Listing.ListFolderListed` | core/space/services/services_fs.go:165-295 | a deep listing holds exactly the entries below the directory reached through names that are not meta names |
| `Listing.ListFolderDistinct` | core/space/services/services_fs.go:165-295 | no entry is listed twice |
| `Listing.ListFolderPreorder` | core/space/services/services_fs.go:192-256 | every folder is listed before what it holds, with nothing from elsewhere in between |
| `Listing.ListDirIsFirstLevel` | core/space/services/services_fs.go:262-295 | `ListDir` gives, in the same order, the entries of `ListDirs` that lie directly in the directory |
| `Listing.ShownIffNoPrefix` | core/space/services/services_fs.go:178-203 | the reported path is the item's own exactly when no folder two or more levels above it, other than at the top of the bucket, is named `ipfs` or `ipns` |
| `Listing.ShownIsCut` | core/space/services/services_fs.go:178-203 | otherwise it is what comes two names after the first such folder |
| `ListedPaths.RelPathIsShown` | core/space/services/services_fs.go:178-203 | for every path of slash-free names, the last group that the pattern finds in the path's text, or the whole text, is the text of the path that is reported, with a slash in front when it was cut |
| `Listing.ListedShown` | core/space/services/services_fs.go:197-203 | every listed entry is reported under its own path after the pattern |
| `RoundTrip.UploadEntries` | core/space/services/services_fs.go:587-661 | uploading siblings adds exactly their images to the target folder |
| `RoundTrip.UploadItems` | core/space/services/services_fs.go:587-661 | uploading the sources adds exactly their images to the target folder |
| `RoundTrip.UploadThenList` | core/space/services/services_fs.go:165-295 | after an upload to a fresh target, the root included, the deep listing is exactly the nodes of the trees and one keep file per folder, each once, in preorder, at the paths they have in the trees, each reported under that path after the pattern |
| `RoundTrip.ReportedPathsIff` | core/space/services/services_fs.go:178-203 | all reported paths are the paths in the trees if and only if no uploaded node lies two or more levels below a folder named `ipfs` or `ipns` that is not at the top of the bucket |
| `RoundTrip.PrefixedPathIsCut` | core/space/services/services_fs.go:178-203 | the file docs/ipfs/x/y uploaded to the root of an empty bucket is listed as y |
| `RoundTrip.HiddenNames` | core/textile/utils/utils.go:148-160 | a folder with one entry lists as empty exactly when that entry has one of the five meta names, and the keep file is listed |
| `RoundTrip.AddItemsThenListDirs` | core/space/services/services_fs.go:587-700 | the two calls one after the other give that listing |
| `ProgressStream.PushNotifications` | grpc/handlers.go:208-242 | the loop turns messages into a stream whose counters count the results up to each message |
| `ProgressStream.StepInv` | grpc/handlers.go:196-260 | every step keeps: results are forwarded or dropped in order, dropped only after a cancellation, and the stream reports the forwarded ones |
| `ProgressStream.Progress` | grpc/handlers.go:196-260 | unless the handler has returned some goroutine can move, with or without a cancellation |
| `ProgressStream.DrainsResults` | grpc/handlers.go:245-258 | every run ends with the handler returned and every result taken off the channel, also after the client cancelled |
| `ProgressStream.CancelDropsOnlyLater` | grpc/handlers.go:245-251 | a result the handler handed on before the cancellation is never lost by it |
| `ProgressStream.CountersClimb` | grpc/handlers.go:209-240 | at every moment `CompletedFiles` is one per message and `CompletedBytes` never falls and never exceeds the bytes of the results |
| `ProgressStream.UncancelledStream` | grpc/handlers.go:209-258 | without a cancellation the stream reports every result in order |
| `ProgressStream.CompletesUncancelled` | grpc/handlers.go:196-260 | every upload has a run that ends without a cancellation |
| `ProgressStream.WithinTotals` | grpc/handlers.go:209-240 | every message is within the totals that `getTotals` returned, whatever the interleavings |
| `ProgressStream.EndsAtTotals` | grpc/handlers.go:209-258 | an uncancelled stream ends at `TotalFiles` exactly when no folder failed and nothing was skipped, and at `TotalBytes` when every upload succeeded too |
| `Sharing.Find` | core/textile/model/received_file.go:169-190 | finds a record of the holder for the file when there is one and only then |
| `SharingRuns.StepOrder` | core/space/services/services_sharing.go:308-503 | each write, failure or start of any user's call keeps every message backed by earlier writes of its sender |
| `SharingRuns.MessagesFollowRoles` | core/space/services/services_sharing.go:308-503 | at every moment of every run an invitation is in a mailbox only after the sent record and the recipient's admin role, and a revocation only after the removal of the role, for each of its paths |
| `SharingRuns.RecordsOnePerFile` | core/textile/model/received_file.go:53-83 | in every run no user ever holds two records of one file |
| `SharingRuns.FindIgnoresOrder` | core/textile/model/received_file.go:169-190 | hence the record found does not depend on the order of the query's result |
| `SharingRuns.CallIsSteps` | core/space/services/services_sharing.go:308-569 | what any call of a daemon leaves, complete or cut short anywhere, is where a run of the system can go next |
| `SharingOrigins.RecordsComeFromInvitations` | core/space/services/services_sharing.go:509-569 | at every moment of every run, behind each received record stands the invitation it names, sent to its holder by the inviter it names, with its file, bucket and, when accepted, key |
| `SharingOrigins.RepliesAnswerInvitations` | core/space/services/services_sharing.go:509-569 | and behind each reply an invitation with the same files that was sent the other way |
| `SharingOrigins.ShareSucceedsIff` | core/space/services/services_sharing.go:308-451 | a share, or an unshare, reports success exactly when all paths resolve, the first with a key, and no lookup and no write fails |
| `SharingOrigins.AnswerSucceedsIff` | core/space/services/services_sharing.go:509-569 | an answer reports success exactly when the message is a pending invitation to the user with a key per path, no record fails to be created and an accept's reply is sent |
| `SharingKeys.ResolveRightIff` | core/space/services/services_sharing.go:377-432 | a resolved path comes with the key of the bucket it names exactly when it is the caller's own without another's database id, or a received file that was accepted |
| `SharingKeys.AllRightIff` | core/space/services/services_sharing.go:377-432 | all keys resolved for a list of paths are right exactly when all the paths are such paths |
| `SharingKeys.KeylessIff` | core/textile/secure_bucket_client.go:97-101 | the first role push of a call finds no encryption key exactly when its first path names a rejected file |
| `SharingKeys.PushKeyRightIff` | core/textile/sharing.go:48-64 | the role for a path is pushed under the key of the bucket it names exactly when the last path up to it that is no rejected file comes with the key of the same database, since the loop keeps one context |
| `SharingKeys.SendRightIff` | core/space/services/services_sharing.go:308-375 | the messages that a share or an unshare plans hold only right keys if and only if it has no recipients, begins with a rejected file or names proper paths only |
| `SharingKeys.RejectedFirstSendsNothing` | core/textile/sharing.go:48-64 | a call that begins with a rejected file never succeeds and changes no role, message or received record, whatever fails |
| `SharingKeys.SuccessRightIff` | core/space/services/services_sharing.go:308-503 | a share or an unshare that reports success and has a recipient leaves all keys in records, messages and pushes right if and only if it named proper paths only |
| `SharingKeys.StepRight` | core/space/services/services_sharing.go:308-503 | each step of such a run keeps the keys of records, messages and pushes right |
| `SharingKeys.KeysFollowOwners` | core/space/services/services_sharing.go:308-432 | in every run whose calls name proper paths or begin with a rejected file, over any number of users and along any chain of reshares, the key at each index of every message, of every role push and of every accepted record is the key of the owner's bucket |
| `SharingKeys.InvitationsMatchSent` | core/space/services/services_sharing.go:308-375 | in every run of proper calls, behind each path of an invitation is a sent record of its sender with the same bucket key and the same key |
| `SharingKeys.NextShareRightIff` | core/space/services/services_sharing.go:308-432 | after such a run a further share or unshare sends only right keys if and only if it has no recipients, begins with a rejected file or names proper paths only |
| `SharingKeys.RolesAreForTheFile` | core/textile/sharing.go:48-64 | in every such run the role last pushed for a bucket and a path is the role last pushed for the item of that path under the owner's key, when bucket keys are apart |
| `SharingKeys.SentFollowOwners` | core/space/services/services_sharing.go:319-324 | in every run of proper calls the sent records hold the owners' keys as well |
| `Revocations.PlacesStay` | core/space/services/services_sharing.go:377-432 | in every run, proper or not, every record and every path of a message names the mirror slug and the bucket key of some owner |
| `Revocations.RevocationDeletesIff` | core/textile/model/received_file.go:249-289 | in every run a revocation deletes a record of its recipient if and only if one of its paths has the record's database, path and key and a bucket key that is the mirror slug |
| `Revocations.RevocationKeepsRecords` | core/textile/model/received_file.go:249-289 | so no revocation of any run deletes a record as long as no owner's bucket key is the mirror slug: the query compares the bucket's slug with the bucket's key |
| `Invitations.ParseStatuses` | core/textile/mailbox.go:49-107 | building the map over the found records and reading it per message gives the status of the last record of each invitation |
| `Invitations.StatusIff` | core/textile/mailbox.go:100-107 | pending exactly when there is no record; accepted or rejected only with such a record |
| `Invitations.LastDecides` | core/textile/mailbox.go:49-107 | when records of one invitation disagree, the one found last decides its status |
| `Invitations.StatusIgnoresOrder` | core/textile/mailbox.go:55-107 | when the records of an invitation agree, the status does not depend on the order in which they are found |
| `Invitations.StepAgrees` | core/textile/sharing.go:77-152 | each step of a run keeps the records of every invitation in agreement |
| `Invitations.RecordsAgree` | core/textile/sharing.go:77-152 | when no user accepts and rejects one invitation at the same time, all records of one invitation agree on acceptance at every moment, whichever creations fail and whatever else overlaps |
| `Invitations.AnsweredOnce` | core/textile/sharing.go:77-117 | once an invitation has a record its status stays, and every later accept or reject fails before any write; an answer leaves a record under the condition of `AnswerRecordedIff` |
| `Invitations.AnswerRecordedIff` | core/textile/model/received_file.go:53-83 | an answer, whichever of its creations fail, leaves the invitation answered if and only if it creates the record of a file of which the user had none |
| `Invitations.SuccessStaysPendingIff` | core/textile/sharing.go:119-152 | an answer that reports success leaves the invitation pending if and only if the user had a record of every file of it |
| `Invitations.AcceptTakesEffectIff` | core/textile/model/received_file.go:53-83 | an accept that reports success leaves every file accepted exactly when the user had rejected none of them in an earlier invitation |
| `Invitations.AcceptSucceedsIff` | core/space/services/services_sharing.go:509-569 | an accept reports success exactly when its reply is in the inviter's mailbox, and sends nothing otherwise |
| `Invitations.SuccessRecordsAll` | core/textile/sharing.go:119-152 | after an answer that reports success the user has a record of every file of the invitation |
| `SharingCases.RejectedFileIsReshared` | core/space/services/services_sharing.go:417-427 | a run in which a user rejects one of two files and shares both on: the rejected one's role is pushed under the other's key, and the mailbox of a third user holds an invitation with an empty key |
| `SharingCases.RejectedFileIsRefused` | core/textile/secure_bucket_client.go:97-101 | a run after which sharing on a rejected file by itself never succeeds and sends no message |
| `SharingCases.ForeignDatabaseIsShared` | core/space/services/services_sharing.go:391-416 | a run in which an invitation carries the sender's own key for another user's database |
| `SharingCases.AcceptHasNoEffect` | core/textile/model/received_file.go:53-83 | a run in which an accept reports success and the file stays rejected |
| `SharingCases.CutShareIsSilent` | core/space/services/services_sharing.go:326-373 | a share cut after its role push leaves a role that no message announced |
| `SharingCases.RepeatedShareAgrees` | core/space/services/services_sharing.go:326-373 | after a share and the same share cut short, role and last message agree though the call that set the role sent none |
| `SharingCases.OverlapDisagrees` | core/space/services/services_sharing.go:308-503 | a run of an overlapping share and unshare, both complete, after which the role is removed and the last message announces it |
| `SharingCases.RevokedFileIsKept` | core/textile/model/received_file.go:249-289 | a run in which a share, its accept and the unshare leave the recipient with the record and its key |
| `SharingCases.AcceptStaysPending` | core/textile/model/received_file.go:53-83 | a run in which a second invitation for an accepted file is accepted with success, stays pending, and can then be rejected with success |
| `SharingCases.OpposedAnswersDisagree` | core/textile/sharing.go:119-152 | a run in which an accept and a reject of one invitation overlap, after which its records disagree and the status depends on their order |
| `SharingRoles.CallEffect` | core/space/services/services_sharing.go:308-503 | any call in any world, wherever it stops, changes the role and the last word for a file and a user exactly when it gets as far as that push and that message |
| `SharingRoles.SuccessGrantsAndTells` | core/space/services/services_sharing.go:308-451 | in any world, whatever earlier calls left half done, and while no other call runs, a share or unshare that reports success leaves every recipient with the new role for every file and with a last message that says so |
| `SharingRoles.RoleAndWord` | core/space/services/services_sharing.go:308-503 | after any calls made one after another, each complete or cut short, the role is that of the last call that pushed one and the last word that of the last call that delivered, which is no later |
| `SharingRoles.RoleMatchesIff` | core/space/services/services_sharing.go:308-503 | after any such sequence of calls role and last word agree if and only if nothing was pushed, or the last call that pushed and the last that delivered are of the same kind, share or unshare |
| `SharingRoles.RoleAnnouncedIff` | core/space/services/services_sharing.go:308-503 | they stem from the same call if and only if the last call that pushed a role delivered its message to the user, or there is neither |
| `SharingRoles.RolesMatchMessages` | core/space/services/services_sharing.go:308-503 | after any sequence of calls none of which was cut short they agree for every file and user |
| `SharingOverlaps.RunRoleAndWord` | core/space/services/services_sharing.go:308-503 | at every moment of every run, however calls overlap and wherever they stop, the role is that of the last step that pushed for the file and the user, and the last word that of the last step that told the user |
| `SharingOverlaps.DeliveryMatchesIff` | core/space/services/services_sharing.go:308-503 | when a call of any run delivers its message to a user, role and last word agree for a file of it if and only if the last role pushed by any call is of the kind this call announces |
| `SharingOverlaps.RunMatchesIff` | core/space/services/services_sharing.go:308-503 | at every moment of every run they agree if and only if nothing was pushed, or the user was told and the last told is of the kind of the last pushed |
| `SharingOverlaps.UndisturbedCallMatches` | core/space/services/services_sharing.go:308-503 | in any run, a share or unshare that sent its last message, during which no other call pushed for the file and the user or told the user about it leaves role and last word equal, of its own kind |
| `SharingRoles.PastIsRun` | core/space/services/services_sharing.go:308-569 | any such sequence of calls is a run of the system |
| `ShareThenAccept.ResolvedNames` | core/space/services/services_sharing.go:377-432 | a resolved path is the path that was named, in the database that was named or else the own one |
| `ShareThenAccept.ShareSends` | core/space/services/services_sharing.go:326-373 | a share that reports success adds one invitation per recipient to the mailboxes, in order, with all paths and keys |
| `ShareThenAccept.AnswerIsRecorded` | core/textile/sharing.go:119-152 | a successful answer to an invitation to new files leaves for each exactly the record of file, invitation, inviter and answer, with the key when accepted |
| `ShareThenAccept.AcceptedIsWhatWasShared` | core/space/services/services_sharing.go:308-569 | after a successful share and a successful accept a recipient, to whom the files are new, resolves each to the very place and key that were shared, under the path that the sender named |
| `OpenFiles.PrefixesApart` | core/sync/sync.go:24-27 | a scan for one prefix never finds a key of the other kind |
| `OpenFiles.ReverseKeyInjective` | core/sync/sync.go:204-206 | places whose slug, database id and cid hold no colon have different keys, whatever their paths hold |
| `OpenFiles.ColonsCollide` | core/sync/sync.go:204-206 | a colon in a slug lets two items share a key |
| `OpenFiles.AddKeepsIff` | core/sync/sync.go:159-236 | an add, complete or stopped between its writes, keeps every reverse entry in step with the forward entry of its local path exactly when no other reverse entry uses that local path |
| `OpenFiles.ReloadKeepsIff` | core/sync/sync.go:109-126 | a restart, with any of its removals failing, keeps the entries in step exactly when every reverse entry whose forward entry it takes out is taken out too |
| `OpenFiles.ReloadKeeps` | core/sync/sync.go:109-126 | a restart whose removals complete keeps them in step |
| `OpenFiles.HalfRemovalKeepsIff` | core/sync/sync.go:239-248 | a removal that stops after its first step keeps them in step exactly when no reverse entry uses the local path |
| `OpenFiles.IndexStaysInStep` | core/sync/sync.go:110-248 | over any run of adds, stopped adds and restarts with fresh local paths the entries stay in step |
| `OpenFiles.FoundResolvesBack` | core/sync/sync.go:184-220 | a local path found for a place resolves back to a record of exactly that place |
| `OpenFiles.EveryFoundPathResolvesBack` | core/sync/sync.go:110-248 | so in every state reached by colon-free records under fresh local paths, stopped adds and restarts, a local path found for a place resolves back to a record of exactly that place and path |
| `OpenFiles.AddRefines` | core/sync/sync.go:204-236 | on the store as a map from places and a map from local paths, an add changes one key of each and nothing else |
| `OpenFiles.RemoveRefines` | core/sync/sync.go:239-248 | and a removal takes out one key of each |
| `OpenFiles.RemovalTells` | core/sync/sync.go:239-248 | a removal makes the local path unknown with its first step and the place with its second |
| `OpenFiles.OpenRefines` | core/space/services/services_fs.go:299-392 | opening a file on the string-keyed store is, in every branch, opening it on the map from places and the map from local paths |
| `OpenFiles.OpenedIsRegistered` | core/space/services/services_fs.go:299-392 | a returned location exists and is registered for the current cid |
| `OpenFiles.OpenAgain` | core/space/services/services_fs.go:318-326 | opening again at once, while that file is there, returns the same location and adds no record |
| `OpenFiles.StaysOpenIff` | core/sync/sync.go:110-248 | an event leaves a place its location exactly when it is no complete add of another location for the place, no restart that takes out a record of the place completely, and does not take the file away |
| `OpenFiles.OpenAgainLater` | core/space/services/services_fs.go:299-342 | the same after any opens, adds, stopped adds, restarts and disappearing files that spare the location |
| `OpenFiles.OpenKeeps` | core/space/services/services_fs.go:299-392 | an open with a fresh local path keeps the entries in step, its location resolves to the opened version, and a file it registers is remote exactly when a database is named and holds its bucket's key |
| `OpenEdits.RecordsStayTrue` | core/space/services/services_fs.go:299-392 | over any run of opens, adds, stopped adds and restarts with fresh local paths every record is remote exactly when it names a database and holds its bucket's own key |
| `OpenEdits.FoundIsTrue` | core/sync/sync.go:184-220 | in such an index the local path found for a place leads to a true record of exactly that place, and edits go to that place |
| `OpenEdits.EditsReachTheItem` | core/sync/fs.go:131-176 | after any such run a file that an open returns is registered as remote exactly when a database was named and with the bucket's key, and what is written to it goes to the item it was read from |
| `OpenEdits.EditsGoOnReaching` | core/sync/fs.go:131-176 | and goes on doing so over all events that leave the file its place |
| `OpenEdits.RemovalReachesIff` | core/sync/fs.go:96-125 | removing an opened file deletes the item it was read from exactly when it is in an own bucket; otherwise it deletes the item at that path of an own bucket |
| `OpenEdits.OpensIff` | core/sync/sync.go:159-182 | an open of an unknown place gives a location exactly when nothing fails and neither local path, bucket key nor item path is empty |
| `OpenEdits.RecordsStayFilled` | core/sync/sync.go:159-182 | over any run of opens, restarts and disappearing files every record has a local path, a bucket key and a path |
| `Codecs.DecodeEncodeHex` | core/keychain/keychain.go:337-381 | decoding printed hexadecimal gives the bytes back, and the alphabet has no underscore |
| `Codecs.DecodeCapitals` | core/keychain/keychain.go:369-376 | hexadecimal text in capital letters is read as well |
| `Codecs.SplitAfter` | core/keychain/keychain.go:369-376 | text that cannot start a separator is exactly the first part |
| `Codecs.Base64Shape` | core/permissions/app_token.go:43-62 | unpadded base64url text holds no dot and has the length its bytes require |
| `Codecs.DecodeEncodeBase64` | core/permissions/app_token.go:57-58 | decoding undoes encoding for all bytes |
| `Codecs.UnusedBitsAreZero` | core/permissions/app_token.go:57-58 | the bits of the last digit that belong to no byte are zero |
| `Keychain.ParsePrint` | core/keychain/keychain.go:337-381 | the key always survives printing and parsing, the mnemonic up to a separator inside it |
| `Keychain.ParsePrintIff` | core/keychain/keychain.go:337-381 | the round trip is exact precisely for mnemonics without the separator |
| `Keychain.ParsePanicsIff` | core/keychain/keychain.go:369-376 | reading runs into the index out of range exactly on text without the separator |
| `Keychain.ParseFailsIff` | core/keychain/keychain.go:359-381 | reading succeeds exactly on text with the separator after hexadecimal text, and which error otherwise |
| `Keychain.UnmarshalIff` | core/space/services/services_vault.go:52-55 | the bytes read as a private key are the key itself or the key with its public key repeated after it |
| `Keychain.SamePair` | core/keychain/keychain.go:128-293 | while a public key is stored, signing, the returned pair and the stored public key belong together |
| `Keychain.PutKeysKeepsIff` | core/keychain/keychain.go:207-282 | storing a pair keeps ring, store and cache together exactly unless it stops between ring and store over other keys |
| `Keychain.DeleteKeepsIff` | core/keychain/keychain.go:227-244 | deleting keeps them together exactly unless the ring forgets a key that the store or the cache still knows |
| `Keychain.SignsAfterDeleteIff` | core/keychain/keychain.go:227-293 | after a delete no pair is stored and yet a signature can be made, with the same key, exactly when the ring removal failed |
| `Keychain.KeysStayTogether` | core/keychain/keychain.go:118-293 | over any run of generations, imports, deletions with failing ring removals, reads, restarts and store wipes: a stored public key means that all readers use one pair, and reading never runs out of range |
| `Keychain.ReadFillsCache` | core/keychain/keychain.go:128-158 | a read that succeeds is answered from the cache afterwards, whatever becomes of the ring's entry, and changes neither ring nor store |
| `Keychain.GenerateTells` | core/keychain/keychain.go:118-125 | generating stores a pair only when none is stored, replacing always, and then all readers read it |
| `Keychain.RestartTells` | core/keychain/keychain.go:128-194 | a restart forgets the cached key only; a wiped store makes the pair unknown while the ring can still be read |
| `AppTokens.AccessTokenRoundTripIff` | core/permissions/app_token.go:64-78 | an access token parses back exactly when neither part holds a dot |
| `AppTokens.GeneratedTokens` | core/permissions/app_token.go:43-78 | generated keys have 27 characters and secrets 40 and hold exactly the random bytes, the token is master and permitted as asked, it parses back, and the key never meets the master entry |
| `AppTokens.GeneratedTokensDiffer` | core/permissions/app_token.go:43-61 | keys, and secrets, of generated tokens are equal exactly when their random bytes are |
| `AppTokens.StoreChangesMasterIff` | core/keychain/app_token.go:15-80 | a stored token changes an existing master entry exactly when it is no master token and carries the reserved key |
| `AppTokens.MasterWrittenOnce` | core/keychain/app_token.go:15-80 | over any run of token stores with failing writes, key operations, restarts and store wipes, the ring's master entry is written at most once |
| `AppTokens.MasterStays` | core/keychain/app_token.go:15-34 | once written it never changes, and every later master store is refused and changes nothing |
| `AppTokens.StoredTokenIsFound` | core/keychain/app_token.go:15-76 | a token that was stored is found under its key, and the key pair is not disturbed |
| `AppTokens.TokenStays` | core/keychain/app_token.go:15-76 | it stays found over any run until a token of the same key or, for the reserved key, a master token is stored |
| `AppTokens.GeneratedTokenStays` | core/keychain/app_token.go:15-76 | a generated token that was stored stays found, with its secret and permissions, over any run in which the other stored tokens come from other key bytes |
| `AppTokens.StoreResultTells` | core/keychain/app_token.go:15-62 | a store reports success exactly when the ring then holds the token and, for a master token, ring and store its master entry; it is refused exactly for a second master token |
| `AppTokens.CutMasterStore` | core/keychain/app_token.go:15-62 | how far a first master store comes decides whether the token is found, whether later master stores are refused, and whether the master entry is there |
| `AppTokens.PutTokenLeavesKeys` | core/keychain/app_token.go:15-62 | storing a token, wherever it stops, leaves key ring entry, stored public key and cached key alone |
| `AppTokens.KeysStayTogetherWithTokens` | core/keychain/keychain.go:118-293 | over any run that mixes failing token stores with the operations on keys, all readers use one pair while a public key is stored |
| `Vault.ParseVaultPrintIff` | core/space/services/services_vault.go:71-128 | recovering what a backup printed gives key and mnemonic back exactly when the mnemonic has no separator |
| `Vault.VaultPanicsIff` | core/space/services/services_vault.go:81-93 | recovery runs into the index out of range exactly on a bare key, in either form |
| `Vault.ReadMnemonicIsFree` | core/keychain/keychain.go:196-203 | a mnemonic that was read never holds the separator |
| `Vault.BackupThenRecover` | core/space/services/services_vault.go:71-139 | so a backup made on one device gives any other device the same key, mnemonic and public key, whatever mnemonic the first was set up with |
| `Vault.LocalBackupThenRecover` | core/space/services/services_vault.go:18-68 | a local backup gives the same key with an empty mnemonic |
| `Vault.FailedRestoreForgets` | core/space/services/services_vault.go:93-102 | after a failed restore no public key is stored and nothing is cached, and the ring holds a key only when its removal failed |
| `Vault.OutcomeTells` | core/space/services/services_vault.go:71-102 | after a success ring, store and cache hold the recovered pair; after a failed restore store and cache are empty; after a failed write they have not changed |
| `FileCache.SecureBucketClient.PullFileFromLocal` | core/textile/secure_bucket_client.go:479-514 | the cached content when the path's cid has an entry that decodes and names a file that is there, and which error otherwise; never to be cached |
| `FileCache.SecureBucketClient.PullFileFromDht` | core/textile/secure_bucket_client.go:516-556 | the content of the path's cid when the network has it; never to be cached |
| `FileCache.SecureBucketClient.PullFileFromClient` | core/textile/secure_bucket_client.go:464-475 | the item's content when the service answers, to be cached only by a remote client that succeeded |
| `FileCache.SecureBucketClient.FillCache` | core/textile/secure_bucket_client.go:406-445 | the whole new cache and block store, also when the block, the item or the entry fails |
| `AddItems.Uploader.AddItems` | core/space/services/services_fs.go:587-612 | the loop streams exactly the results of the trees in order and leaves exactly their pushes in the bucket |
| `AddItems.Uploader.AddItem` | core/space/services/services_fs.go:589-609 | one source path: the results and pushes of its tree, file or folder |
| `AddItems.Uploader.AddFile` | core/space/services/services_fs.go:664-700 | one result per file, failed when the upload is refused or the size cannot be read, and the push it makes in each case |
| `AddItems.Uploader.HandleAddItemFolder` | core/space/services/services_fs.go:614-639 | one result when the folder cannot be created, otherwise one for the folder and then those of what is below it, with a second failing one for a folder that cannot be read |
| `AddItems.Uploader.AddFolderRec` | core/space/services/services_fs.go:641-661 | fails exactly on an unreadable folder and otherwise uploads its children |
| `Sharing.Daemon.ResolveFullPaths` | core/space/services/services_sharing.go:377-432 | fills paths and keys index by index, and fails exactly when a lookup fails or some path names no received file |
| `Sharing.Daemon.RecordSentFiles` | core/space/services/services_sharing.go:319-324 | writes the missing sent records in order and stops at the first failing write |
| `Sharing.Daemon.ManageShareFilesViaPublicKey` | core/textile/sharing.go:24-71 | pushes the role of all recipients path by path, each under the key of its path or, when that is empty, the key before it in the context; stops at the first failing push, and at once when the first path has no key |
| `Sharing.Daemon.SendToAll` | core/space/services/services_sharing.go:331-373 | sends the message to the recipients in order and stops at the first failing send |
| `Sharing.Daemon.ShareFilesViaPublicKey` | core/space/services/services_sharing.go:308-375 | wherever it stops, a share leaves a prefix of: sent records, admin roles, invitations; nothing when a path does not resolve; only sent records when the first path has no key; and it reports success exactly when nothing failed and there was a key |
| `Sharing.Daemon.PushAndTell` | core/space/services/services_sharing.go:326-373 | roles of all files first, then the message to all recipients, stopping at the first failing write; nothing when the first path has no key |
| `Sharing.Daemon.UnshareFilesViaPublicKey` | core/space/services/services_sharing.go:434-503 | wherever it stops, an unshare leaves a prefix of: removed roles, revocations; nothing when the first path has no key |
| `Sharing.Daemon.HandleSharedFilesInvitation` | core/space/services/services_sharing.go:509-569 | writes nothing unless the message is a pending invitation to the user with a key per path; replies to the inviter only after an accept that created every record |
| `Sharing.Daemon.CreateReceivedFiles` | core/textile/sharing.go:119-152 | goes on past failures, succeeds exactly when none failed, and leaves existing records alone |
| `OpenFiles.BucketSynchronizer.AddFileInfoToStore` | core/sync/sync.go:223-236 | forward entry first, reverse entry second, stopping where a write fails |
| `OpenFiles.BucketSynchronizer.AddFileWatch` | core/sync/sync.go:159-182 | refuses empty fields without a write, and keeps the entries of a file the watcher refuses |
| `OpenFiles.BucketSynchronizer.GetOpenFilePath` | core/sync/sync.go:184-198 | the local path registered for the place, if it is not empty |
| `OpenFiles.BucketSynchronizer.GetOpenFileBucketSlugAndPath` | core/sync/sync.go:208-220 | the record of the local path, if it has a slug |
| `OpenFiles.BucketSynchronizer.RemoveFileInfo` | core/sync/sync.go:239-248 | takes out the forward key and then the reverse key, stopping where a removal fails |
| `OpenFiles.BucketSynchronizer.Reload` | core/sync/sync.go:109-126 | whatever the order of the keys and whichever removals fail, takes out exactly the keys whose removals succeed of existing files that cannot be watched |
| `OpenFiles.Space.OpenFile` | core/space/services/services_fs.go:299-342 | the new index, local files and returned location, in the branches for an item that is not found, a known file that is there, one that is gone and each failure |
| `OpenFiles.Space.OpenFileOnFs` | core/space/services/services_fs.go:359-392 | copying to a new local path and registering it |
| `OpenEdits.WatcherHandler.OnWrite` | core/sync/fs.go:131-176 | the bucket and the path that a changed file is uploaded to, by the record of its local path |
| `OpenEdits.WatcherHandler.OnRemove` | core/sync/fs.go:96-125 | the item that the removal of a watched file deletes |
| `Keychain.KeyChain.StoreKeyPair` | core/keychain/keychain.go:331-357 | ring first, store second, stopping where a write fails |
| `Keychain.KeyChain.RetrieveKeyPair` | core/keychain/keychain.go:359-381 | the pair in the ring, or which error |
| `Keychain.KeyChain.GetStoredPublicKey` | core/keychain/keychain.go:169-194 | the stored public key while the ring has a private key |
| `Keychain.KeyChain.GenerateKeyPair` | core/keychain/keychain.go:118-125 | refuses while a public key is stored and otherwise stores the new pair |
| `Keychain.KeyChain.GenerateAndStoreKeyPair` | core/keychain/keychain.go:261-282 | stores the new pair and caches it, or leaves what the failed write leaves |
| `Keychain.KeyChain.ImportExistingKeyPair` | core/keychain/keychain.go:207-225 | the same for an imported pair |
| `Keychain.KeyChain.DeleteKeypair` | core/keychain/keychain.go:227-244 | a failing ring removal is not reported; a failing store removal leaves the cache |
| `Keychain.KeyChain.GetStoredKeyPairInLibP2PFormat` | core/keychain/keychain.go:128-158 | the cached key, or the ring's key which is then cached, but only while a public key is stored |
| `Keychain.KeyChain.Sign` | core/keychain/keychain.go:286-293 | the key used is always the ring's |
| `Keychain.KeyChain.StoreAppToken` | core/keychain/app_token.go:15-62 | the result and the new ring and store in every branch, with any of the writes failing |
| `Keychain.KeyChain.GetAppToken` | core/keychain/app_token.go:64-76 | the token stored under the key |
| `Vault.Space.BackupKeysByPassphrase` | core/space/services/services_vault.go:105-139 | the printed value, the cache filled on the way, and which error when tokens, keys or the vault fail |
| `Vault.Space.RecoverKeysByPassphrase` | core/space/services/services_vault.go:71-102 | malformed values change nothing and give the error of the step that refuses them, the index out of range among them; a failed restore deletes what was imported |
| `Vault.Space.ImportAndRestore` | core/space/services/services_vault.go:93-102 | imports the pair and restores the database; when that fails the pair is deleted and the call fails |
| `Vault.Space.CreateLocalKeysBackup` | core/space/services/services_vault.go:18-38 | the key in hexadecimal, or an error when it cannot be read or written |
| `Vault.Space.RecoverKeysByLocalBackup` | core/space/services/services_vault.go:42-68 | the same recovery without a mnemonic, with which error |

## Left out

- FileCache.RaceRefinesClientPull: the copy and the cache phase are one step each, so nothing is said about the early return at core/textile/secure_bucket_client.go:448; temporary files are taken to be created.
- GetTotals.ReturnsTheCount: sizes and counts are unbounded integers, without the wrap-around of 64 bits; the tree does not change during the call and holds no symbolic links.
- RoundTrip.UploadThenList: sizes of directories, dates and mirror flags of a listing are not modelled.
- Listing.ListItem: the members of an item and whether it is available locally are left out, and with them a listing that fails because its members cannot be read.
- ListedPaths.RelPathIsShown: the item's path is the one the secure client leaves, without a leading slash (core/textile/secure_bucket_client.go:179-186), and names hold no line breaks.
- Buckets.InsertIsGraft: a push through a path that holds a file replaces the file by a folder, which is the model's choice for a call into the bucket service.
- Sharing.Daemon.ResolveFullPaths: in the interleaved runs all paths of a call are resolved in one step, as is the check of a mailbox and its records.
- Sharing.Daemon.HandleSharedFilesInvitation: the notification of the search index is not modelled, and a message is looked up by its exact id.
- SharingRoles.SuccessGrantsAndTells: calls made one after another; what holds when calls overlap is stated in `SharingOverlaps`.
- Invitations.RecordsAgree: the check for an existing record and its creation are one step.
- SharingKeys.KeysFollowOwners: that different buckets have different, nonempty keys is assumed, as random keys of 80 bytes are; the status after a revocation is not followed, since revocations delete nothing.
- SharingCases.ForeignDatabaseIsShared: rests on the hub accepting a role push for the sender's bucket in the context of another user's database; the hub's answers are parameters of the model, which says nothing of when it refuses.
- SharingKeys.PushKeyRightIff: whether the hub knows the item that a path names under a wrong key is the hub's answer; keys of the wrong length do not occur.
- SharingRoles.CallEffect: a role is looked up by bucket and path, whichever key the push was made under; `SharingKeys.RolesAreForTheFile` says when that is the file's role.
- OpenFiles.IndexStaysInStep: removals complete; when others break the invariant is stated apart, in `OpenFiles.HalfRemovalKeepsIff` and `OpenFiles.ReloadKeepsIff`.
- OpenEdits.WatcherHandler.OnRemove: the events for created, renamed and moved files are left out, and so are the answers of the bucket service to an upload or a deletion.
- AddItems.Uploader.AddFile: the bucket path in a result is not modelled.
- OpenFiles.BucketSynchronizer.AddFileWatch: the JSON text of a record is taken to give the record back.
- Keychain.KeyChain.GenerateKeyPair: keys are given from outside as 64 bytes whose second half is the public key; the derivation from a mnemonic and the signature itself are left out.
- Vault.Space.BackupKeysByPassphrase: the vault service with its encryption and the file format of local backups are left out; recovery starts from the decrypted items.
- AppTokens.MasterWrittenOnce: reads of the ring and the store work.
- Sharing.Daemon.ShareFilesViaPublicKey: reading the own public key and writing a message as JSON count as part of sending it.
- Encryption, signatures, JSON and bip39: opaque.
- Network, mail, thread and bucket services, configuration, logging and gRPC start-up: their answers are parameters.
- FUSE mounting, the file system caches, search engines and connection health checks.
- Public link sharing: wrappers over encryption and upload.
