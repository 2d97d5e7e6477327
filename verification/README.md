# Verification of AION's transfer protocol, kanban queue and service broker

AION runs microservices on several devices. A *kanban* is the record a service hands to the next one: what was done,
which files belong to it, which connection to follow. This project models, in Dafny, the three parts of AION that move
kanbans, and proves what each of them keeps in every run.

1. **Sending a kanban with its files to another device** (`cmd/send-anything`). The client walks the paths of the
   kanban's file list and prints a nested stream of messages; the server is a recursive-descent receiver that checks
   order, names, hashes and counts, writes the files, rewrites the file list and passes the kanban on.
2. **The kanban queue over a Redis stream** (`internal/kanban`, `pkg/my_redis`, and the replicator's second watcher).
3. **The service broker** (`cmd/service-broker`, `internal/microservice`, `config`): the controller loop with its scale
   containers, the watcher that routes the kanbans a service finishes, and the two loops that hand work to each other.

Run `dafny verify dfyconfig.toml` in this directory to check everything.

## How the model is built

The loops that change state in Go are methods with loops over mutable objects here (`Inbox`, `Disk`,
`ReceivingFileBuilder`, `OpenFile`, `Outbox`, `RedisStream`, `ScaleContainer`, `MicroserviceController`,
`KanbanRecord`, `BrokerWatcher`). Each is proved to compute a function of its input or old state, and the theorems are about these
functions. Where processes interleave (writers, watchers and crashes on a stream; the broker's two loops), the model is
a step machine and the theorems are about every sequence of steps.

| module | content |
|---|---|
| `Basics`, `Decimal`, `Paths`, `FileStore` | bytes and `int32`, Go's decimal printing, `path/filepath`, a file system of directories and files |
| `Kanbans`, `Messages` | the records and the messages on the wire |
| `Receiver` | the server: the three nested receive loops |
| `Language` | the accepted language, defined by a printer of frames, and the proof that the receiver accepts exactly it |
| `Sender` | the client: every read may be short, every send may fail |
| `Trees` | what a device holds, as a relation over its directory tree, and what the client makes of every listed path |
| `Storage`, `Transfer` | what the writes leave on disk; both ends together |
| `Arrival` | from device to device: where the bytes held on one device are on the other |
| `Verdicts`, `Integrity` | what the receiver answers to every run of the client; what the hash check guarantees |
| `Streams`, `Queue`, `Crashes`, `Watchers` | the Redis stream; one watcher with writers; the same with crashes and restarts; many watchers on one stream |
| `Keys`, `Metadata` | the queue keys; the replicator's conversion of metadata |
| `Settings`, `Containers`, `Broker`, `Controller` | the project setting; one service's instances; the controller loop on values and as an object |
| `Routing`, `Handoff` | the watcher's dispatch; the hand-offs between the broker's loops |

Conventions: a path string is the sequence of its pieces between slashes. The file digest is an arbitrary function with
16-byte results; nothing is assumed about collisions. Redis IDs are natural numbers; the watcher starts at 0 and every
entry has a larger ID. The entries of a directory are in the order in which `filepath.Walk` visits them. Map iteration order, which sends fail, short reads, failing deletions and the success of starting
or stopping a process are arbitrary.

## What the proofs found

Some properties one would expect do not hold of the code. Each is stated with the exact condition under which it does,
and with an input that shows it can fail.

- A file in a subdirectory of a sent directory never arrives in a fresh output directory: the receiver joins the relative
  directory twice, so the file is written below a directory that does not exist, and the session fails.
  `Transfer.RoundTrip` says exactly which sessions go through, `Transfer.NestedRejected` is a concrete failure.
- The path that is hashed is the path that was written exactly when header and trailer name the same file and the relative
  directory leads nowhere new (`Integrity.WriteIsVerified`, `Integrity.OnlyDotIsVerified`). Otherwise any bytes at
  all pass under another file's hash (`Integrity.UncheckedBytes`).
- A header whose directory is absolute is reported on the file list at that absolute place, while the file is written below
  the output directory (`Integrity.ReportedExactly`).
- A client that stops early can be answered OK: after an error exactly when 2^32 - 1 files (modulo 2^32) went through and
  the failure notice was lost, after a panic exactly when 0 did (`Verdicts.DeliveryVerdict`). Both happen
  (`Verdicts.AbortAcknowledged`, `Verdicts.PanicAcknowledged`).
- A kanban may be delivered twice: exactly when a crash comes between its delivery and the removal of its entry, and a
  delivery follows (`Crashes.ExactlyOnce`, `Crashes.DeliversAgain`; `Crashes.DeliveredTwice` is such a run).
- The first local delivery of a kanban redirects its later deliveries to the device's own name. Routing follows the
  configuration exactly when these would have gone to the same place anyway (`Routing.RoutedAsConfigured`);
  `Routing.RemoteGetsNothing` is a setting whose remote device gets nothing. A kanban already queued for a device may
  be overwritten the same way (`Routing.OverwrittenExactly`).
- The broker's loops can block each other for good, and then serve nothing any more (`Handoff.MutualBlocking`,
  `Handoff.BlockingReachable`, `Handoff.NothingAfterBlocking`). After the root context has ended, a hand-off can also
  be stuck because the other loop has returned (`Handoff.SettingStillTaken`, `Handoff.RequestStillTaken`).

## Model

| member | source | states |
|---|---|---|
| `Receiver.DownloadFile` | cmd/send-anything/app/server.go:243-273 | The loop over one file's messages computes `ParseFile`: result, messages left and file system, whatever arrives and wherever the stream ends |
| `Receiver.ReceiveEof` | cmd/send-anything/app/server.go:309-341 | Writes the collected bytes, reads the verified path back and removes it when the hash differs, as `Finish` says; a body of another type changes nothing |
| `Receiver.DownloadDir` | cmd/send-anything/app/server.go:203-231 | The loop over a directory's files computes `ParseDir`; an announced negative count or size ends the session without an OK |
| `Receiver.DownloadAnything` | cmd/send-anything/app/server.go:153-189 | The top-level loop computes `ParseItems`: EOS needs the right file count, any other top-level code ends the run successfully when the item count is the file list's length |
| `Receiver.ParseMessages` | cmd/send-anything/app/server.go:125-151 | A whole session computes `ParseSession`; the kanban is forwarded even when the download fails, with the new file list only after a good EOS |
| `Receiver.ForwardedAnyway` | cmd/send-anything/app/server.go:125-151 | The broker gets the kanban exactly when the stream opens with one, changed in nothing but its list, and unchanged when the session fails |
| `Receiver.ReceivingFileBuilder.Enqueue` | cmd/send-anything/app/server.go:434-437 | Appends the chunk and counts it as an `int32` |
| `Receiver.ReceivingFileBuilder.Dequeue` | cmd/send-anything/app/server.go:439-451 | Creates the file with the collected bytes and resets the count, or changes nothing |
| `Receiver.ListLength` | cmd/send-anything/app/server.go:396-405 | The rewritten list has one entry per received item |
| `Language.ChunkNumbers` | cmd/send-anything/app/server.go:291-307 | A chunk sequence is accepted exactly when the references are consecutive `int32` numbers from 0 and every chunk carries the file's name: any gap, duplicate or reordering is rejected |
| `Language.SessionsAccepted` | cmd/send-anything/app/server.go:125-273 | Every session of the language is acknowledged, exactly its messages are consumed, and the effect is its file writes |
| `Language.SessionSound` | cmd/send-anything/app/server.go:125-273 | Every acknowledged stream begins with a session of the language, given back as frames |
| `Language.AcceptedExactly` | cmd/send-anything/app/server.go:125-273 | The receiver answers OK on exactly the streams that begin with a session of the language |
| `Sender.OpenFile.Hash` | cmd/send-anything/app/baggage/content.go:88-100 | The first call digests the whole file and rewinds; later calls return the cached hash and leave the cursor alone |
| `Sender.OpenFile.GetChunk` | cmd/send-anything/app/baggage/content.go:69-73 | One read: the next bytes, possibly fewer than asked for, never none before the end |
| `Sender.SendFileContent` | cmd/send-anything/app/client.go:403-419 | For any short reads and wherever sending fails, the chunks sent are numbered from 0 and concatenate to a beginning of the file; on success to the whole file, and the count is their number; if no read fails it succeeds exactly if no send tried fails |
| `Sender.SendFile` | cmd/send-anything/app/client.go:337-363 | What is on the stream after a whole, a broken or an unsent file; the chunks of a broken one are a beginning of its content; if no read fails it is whole exactly if no send tried fails |
| `Sender.SendFileInfo` | cmd/send-anything/app/client.go:366-401 | Header and trailer carry size, count, hash, name and relative directory; hashing for the header rewinds the file |
| `Sender.SendDir` | cmd/send-anything/app/client.go:195-236 | A directory frame whose opening and closing counts are the number of file frames between them, or a beginning of one when a send fails |
| `Sender.SendPath` | cmd/send-anything/app/client.go:134-157 | Only special files are skipped; what was sent describes the path's source; undisturbed, it stops exactly when the source cannot be sent, before any send, or at the first send that fails |
| `Sender.SendAnything` | cmd/send-anything/app/client.go:129-193 | All paths in order with the exact file count; or, after an error or a panic, the items before the path reached, a beginning of that path's item, and no count; undisturbed, the path reached is the first that cannot be sent or the one whose send failed |
| `Sender.SendToOtherDevice` | cmd/send-anything/app/client.go:51-108 | Every run of the client leaves one of the deliveries `DeliveryOf` describes: nothing, complete, aborted with or without failure notice and EOS(-1), or panicked with or without the deferred EOS(0). Undisturbed by failing reads and panics it is complete exactly if all paths can be sent and no send for them fails; notice and EOS are tried in any case |
| `Trees.SourceExactly` | cmd/send-anything/app/client.go:129-159 | What a listed path is sent as, by what the device holds at and below its target: a sendable regular file with exactly the bytes held there; a directory's regular files, each once, in walking order and with their bytes; nothing for a special file; an error if nothing is there, it is not sendable, or something below is special |
| `Trees.OneAnswer` | cmd/send-anything/app/client.go:129-159 | The device's contents admit only one of these answers, so each condition is an if and only if |
| `Trees.TargetIs` | cmd/send-anything/app/client.go:511-516 | A relative path is looked up from the home directory, an absolute one from the root |
| `Trees.SendableExactly` | cmd/send-anything/app/client.go:500-510 | A path is sendable exactly when the home directory's string is a prefix of its string |
| `Paths.AbsExactly` | cmd/send-anything/app/client.go:512-512 | The pieces stand for an absolute path exactly when the string starts with a slash |
| `Trees.BaseAgrees` | cmd/send-anything/app/server.go:301-301 | The receiver's base name, of a cleaned path, is the sender's, of a path's text |
| `Trees.WalkLists` | cmd/send-anything/app/baggage/content.go:154-190 | The walk lists exactly the regular files below the directory, with their contents |
| `Trees.WalkInOrder` | cmd/send-anything/app/baggage/content.go:154-190 | The walk lists them in depth-first order of the entries |
| `Trees.WalkFails` | cmd/send-anything/app/baggage/content.go:154-190 | The walk fails exactly when something below the directory is neither a file nor a directory |
| `Trees.BaseIsName` | cmd/send-anything/app/client.go:204-204 | A directory listed by a path that ends in a name is announced under the name of what the path leads to |
| `Storage.StoredExactly` | cmd/send-anything/app/server.go:309-341 | The writes of a session all succeed exactly when the files are storable, and then leave exactly the last content written at each path, in a file system that is still a tree |
| `Storage.LastWriteWins` | cmd/send-anything/app/server.go:439-451 | A path holds the content of the last file stored there |
| `Storage.FinishValid` | cmd/send-anything/app/server.go:315-341 | Writing, checking and removing keep the file system a tree, on success and failure |
| `Transfer.SendsRegular` | cmd/send-anything/app/client.go:195-236 | Whatever the client sends from a device has plain names, top-level files lose their directory, and the blocks make up the contents |
| `Transfer.RoundTrip` | cmd/send-anything/app/server.go:125-341 | For every list the client gets through, every content and every short-read pattern: OK exactly when every directory is flat and no file takes a needed directory's place; then the session and nothing more is consumed, exactly the sent bytes are stored, and the list is rewritten to the output paths, directories first |
| `Transfer.NewServiceIsFresh` | cmd/send-anything/app/server.go:281-286 | The output directory the theorems ask for: one that does not exist yet below an existing data directory |
| `Transfer.ServiceDirBelow` | pkg/common/date.go:29-31 | The output directory's name reads back, split at its last underscore, to exactly the service and the number the kanban is addressed to; it lies where the pieces before the service's name lead from the data directory |
| `Transfer.SameServiceDir` | cmd/send-anything/app/server.go:276-286 | Two kanbans share a directory if and only if they are addressed to the same number of the same service, whatever their status kanbans hold |
| `Transfer.EveryFileArrives` | cmd/send-anything/app/client.go:129-159 | A file whose output path no other file of the session has is stored byte for byte, below the directory whose name reads back to the addressed service and number |
| `Arrival.BytesArrive` | cmd/send-anything/app/server.go:125-341 | After a complete, acknowledged delivery a place below the output directory holds given bytes if and only if the last listed path that stands for a file there leads to a file with these bytes on the sending device; the directory's name reads back to the addressed service and number |
| `Arrival.OneByteArrives` | cmd/send-anything/app/client.go:129-159 | A device with one file of one byte, listed alone: the delivery is acknowledged and the byte is on the other device |
| `Arrival.NothingElse` | cmd/send-anything/app/server.go:309-341 | After such a delivery every file outside the output directory is as it was |
| `Arrival.ListRewritten` | cmd/send-anything/app/server.go:396-414 | The forwarded kanban differs in its list only, which names the output paths of the directories listed, then of the files, each in the order of the original list, special files left out |
| `Transfer.FinalList` | cmd/send-anything/app/server.go:396-414 | The rewritten list is the stable partition of the sent items, directories then files, and the receiver counts as many files as the client |
| `Transfer.NestedRejected` | cmd/send-anything/app/server.go:315-331 | A directory with one file in a subdirectory: the session fails |
| `Verdicts.DeliveryVerdict` | cmd/send-anything/app/client.go:82-107 | For every run of the client, panics included: OK exactly when the whole list and EOS went through and the files are storable, or when it stopped between two items and the count in its EOS, -1 or 0, happens to be that of the files sent |
| `Verdicts.LeavesWholeFiles` | cmd/send-anything/app/server.go:153-341 | However a run ends and whatever the answer: if the files the client got through are storable, the disk holds exactly those, whole, besides what it held before, and nothing of a file cut short |
| `Verdicts.AbortedExactly` | cmd/send-anything/app/client.go:99-105 | A run that stops early is acknowledged exactly when 2^32 - 1 files (modulo 2^32) went through and only EOS(-1) follows |
| `Verdicts.PanickedExactly` | cmd/send-anything/app/client.go:87-97 | A run that panics, so that only the deferred EOS(0) follows, is acknowledged exactly when it stopped between items with 0 files (modulo 2^32) sent |
| `Verdicts.PanicAcknowledged` | cmd/send-anything/app/client.go:87-97 | On any device a panic at the first path is acknowledged and the kanban goes on with an empty list |
| `Verdicts.AbortAcknowledged` | cmd/send-anything/app/client.go:99-105 | A concrete device, list and run that stops with an error and is acknowledged |
| `Verdicts.ParseTorn` | cmd/send-anything/app/server.go:153-273 | An item cut short is rejected, whether the stream then ends or goes on with the failure notice or EOS |
| `Transfer.NoProperPrefixAccepted` | cmd/send-anything/app/server.go:125-189 | From any sender: an accepted session is not accepted when cut before its end |
| `Transfer.FrameAnnounces` | cmd/send-anything/app/client.go:366-401 | Header and trailer announce size and hash of exactly the bytes in the chunks; the trailer's count is that of the chunks, the header's the number of full 128 KiB blocks, at most that and at most one short of it when reads are full |
| `Integrity.AcceptedSessionIntact` | cmd/send-anything/app/server.go:125-341 | After any accepted session, from any sender, each path holds the concatenated chunks of the file last written there, with the announced hash where that path was checked |
| `Integrity.FileAcceptedExactly` | cmd/send-anything/app/server.go:309-341 | A file is accepted exactly when it could be created and what is at the verified path has the announced hash, a directory there having the empty one; one that fails the check is removed, and nothing else |
| `Integrity.WriteIsVerified` | cmd/send-anything/app/server.go:315-331 | For any header and trailer, write path and verified path agree exactly when both name the same file and joining the header's directory changes nothing |
| `Integrity.UncheckedBytes` | cmd/send-anything/app/server.go:309-341 | An accepted session whose second file is stored with any bytes under the hash of the first, because its trailer names the first |
| `Integrity.OnlyDotIsVerified` | cmd/send-anything/app/server.go:315-331 | For a relative directory without "..": exactly when it is "." |
| `Integrity.ReportedExactly` | cmd/send-anything/app/server.go:268-271 | The list reports the place the header's path leads to, from the root or from the output directory; with the trailer's directory "." that is where the file was written exactly when the header's path is relative |
| `Streams.ReadsOldest` | pkg/my_redis/redis.go:39-57 | A read returns the entry with the smallest ID above the given one, and finds nothing exactly when there is none |
| `Streams.RedisStream.XAdd` | pkg/my_redis/redis.go:59-73 | Appends and keeps the newest 50 entries |
| `Streams.RedisStream.XReadOne` | pkg/my_redis/redis.go:39-57 | The oldest entry after the given ID, if any |
| `Streams.RedisStream.XDel` | pkg/my_redis/redis.go:82-87 | Removes the entries with that ID and no others, or fails and changes nothing |
| `Queue.WatchRound` | internal/kanban/redis.go:72-92 | One round of the loop on a stream object, with appends by others before the read, the deletion and the delivery, and stopping anywhere: stream, attempts at deletions, cursor and deliveries are those of `AfterRound` |
| `Queue.RoundResult` | internal/kanban/redis.go:72-92 | What that is: with nothing above the cursor nothing changes; else the cursor moves to the smallest ID above it, that entry is delivered exactly if it decodes, and in delete mode exactly one deletion is attempted, of the old cursor's ID |
| `Queue.WatchKanban` | internal/kanban/redis.go:60-94 | One life of the loop: its rounds one after the other from the cursor "0", up to the first in which it stops |
| `Queue.RestartedWatcher` | internal/kanban/redis.go:60-94 | One life after the other, each from the cursor "0", on the stream the broker has flushed |
| `Queue.LivesAreRuns` | internal/kanban/redis.go:60-94 | These lives are runs of the step machine, with one crash for each, so that the theorems about runs hold of the loop |
| `Queue.WatcherIsQueue` | internal/kanban/redis.go:60-94 | While at most 50 entries wait, the watcher is a plain queue: every round that finds an entry takes the next one; delivered are exactly the decodable ones among those taken; each but the last taken has been asked to be deleted once; the others are in the stream |
| `Queue.Drains` | internal/kanban/redis.go:60-94 | With as many further quiet rounds as entries wait, every decodable entry ever appended is delivered |
| `Queue.AppendKeepsUnread` | pkg/my_redis/redis.go:59-73 | An append keeps every unread entry exactly when at most 50 are then unread |
| `Queue.DeliversInOrder` | internal/kanban/redis.go:45-94 | One watcher, either mode, any interleaving that never leaves more than 50 unread, any failing deletions: the delivered kanbans are the decodable entries appended first, in order, without loss or repetition, and the rest is still in the stream |
| `Crashes.SurvivesCrashes` | internal/kanban/redis.go:60-94 | Delete mode, crashes and restarts anywhere: collapsed deliveries are the decodable entries in order, repetitions are at most the crashes, nothing leaves the stream undelivered, and at the loop head only the entry at the cursor can be left behind it |
| `Crashes.LostOnlyByTrimming` | internal/kanban/redis.go:60-94 | Either mode, any interleaving, any failing deletions, crashes anywhere: an appended kanban is in the stream or was delivered, unless an append trimmed it as the oldest of 50 |
| `Crashes.FirstIsDelivered` | internal/kanban/redis.go:66-84 | Delete mode: what a restart finds first was delivered already exactly when the last delivery is still in the stream |
| `Crashes.DeliversAgain` | internal/kanban/redis.go:66-91 | Delete mode: a kanban about to be delivered was delivered before exactly when a crash since the last delivery found that one still in the stream |
| `Crashes.ExactlyOnce` | internal/kanban/redis.go:66-91 | Delete mode: no kanban is delivered twice if and only if no delivery follows such a crash; the repetitions are exactly these deliveries |
| `Crashes.DeliveredTwice` | internal/kanban/redis.go:66-91 | A concrete run with one crash delivers the same entry twice |
| `Watchers.MissedEntries` | cmd/kanban-replicator/app/watcher.go:34-52 | Any number of watchers on one stream, restarting at will: each reads appended entries in strictly increasing ID order; every entry it missed was trimmed as the oldest of 50 or removed by a deleting watcher that had read it and a later one |
| `Watchers.OneIsQueue` | internal/kanban/redis.go:60-94 | With one watcher, the many-watcher machine can do exactly what the machine of one watcher can, and reaches the same stream, cursor and deliveries |
| `Watchers.AloneMissesOnlyTrimmed` | cmd/kanban-server/app/session.go:40-48 | When no other watcher deletes, everything a watcher missed was trimmed |
| `Watchers.LeavesNow` | internal/kanban/redis.go:73-84 | Only a trimming append or a successful deletion takes an entry from the stream, and the deleting watcher has read beyond it |
| `Keys.KeyRoundTrip` | internal/kanban/interface.go:31-54 | Every before, after and static key can be read back to its queue, whatever colons the names contain |
| `Keys.KeysNeverCollide` | internal/kanban/interface.go:31-54 | Two queues share a key only if they are the same queue, and none has the empty key of a third status type |
| `Decimal.ParseFormat03` | internal/kanban/interface.go:42-50 | The zero-padded decimal determines the integer, negative ones included |
| `Decimal.Format03Width` | internal/kanban/interface.go:42-50 | At least three characters; zeros only to fill up to three |
| `Metadata.UnpackStruct` | cmd/kanban-replicator/app/watcher.go:88-119 | The recursive loops compute `Unpack` for every value |
| `Metadata.SamePlaces` | cmd/kanban-replicator/app/watcher.go:88-119 | Wherever something is in the value, and only there, the result has its counterpart: the same keys, the same length, the same text, number or flag |
| `Metadata.PackUnpack` | cmd/kanban-replicator/app/watcher.go:88-119 | Nothing of the tree is lost: the original value can be recovered |
| `Metadata.UnpackPack` | cmd/kanban-replicator/app/watcher.go:88-119 | And nothing is merged or added: unpacking is a bijection |
| `Settings.SetInitializeValue` | config/project.go:139-190 | The loops compute `Initialized`: an error if some service has no data, else every device and service with its defaults |
| `Settings.LoadedSetting` | config/project.go:139-190 | Loading fails exactly when some service has no data; else name, services and devices are the same, every field that was set is kept, every other has its default, and loading again changes nothing |
| `Settings.PatternsFilled` | config/project.go:181-187 | Exactly the missing number patterns are filled in |
| `Containers.ScaleContainer.constructor` | internal/microservice/scale_container.go:29-48 | The loop makes the instances 1..scale, all with counter 0 |
| `Containers.ScaleContainer.StartMicroservice` | internal/microservice/scale_container.go:54-74 | Which of the checks fails, in order, or one more start counted for that instance and nothing else |
| `Containers.ScaleContainer.StopMicroservice` | internal/microservice/scale_container.go:76-95 | Which of the checks fails, in order, or that instance's counter at 0 and nothing else |
| `Containers.Outcomes` | internal/microservice/scale_container.go:54-95 | With the numbering intact: a start succeeds exactly for 1..scale, when not up or multiple, and the process starts; a stop exactly when up and the process stops; which check fails is told by range and counter; both keep the numbering and the limit of 1 |
| `Broker.RunInvariant` | cmd/service-broker/app/controller.go:100-206 | In every reachable state: instances exactly 1..scale of the last creation, counters equal to the starts since the last stop or re-creation in the log, at most 1 unless multiple, and every start followed at once by exactly one watcher |
| `Broker.GenerationSafety` | cmd/service-broker/app/controller.go:167-206 | The settings handed to the receive loop are those applied, in order. Every watcher runs under the context of one of them, launched after it was handed over and before the next was; its context is live exactly if the setting is the latest and the loop has not ended; before the first setting a start request does nothing, and after the end nothing changes |
| `Broker.ApplyResult` | cmd/service-broker/app/controller.go:34-98 | After an apply in any reachable state, in any map order and with any failures: every service of the setting has the instances 1..scale and the `multiple` that the setting gives it, with counter 1 for a startup service except where the process did not start, and 0 otherwise; dropped services stay known with 0 except where the process did not stop |
| `Broker.RequestResult` | cmd/service-broker/app/controller.go:119-137 | A start request in any reachable state changes something exactly when the loop runs, the service is known, the number is in 1..scale, it may run multiply or is not up, and the process starts; then exactly that instance's counter grows by one and the log by its start and its watcher under the latest context |
| `Broker.KnownServices` | cmd/service-broker/app/controller.go:34-70 | After any run a service is known exactly if some applied setting had it, with the instances and the `multiple` of the latest such setting |
| `Broker.StopsBeforeHandOver` | cmd/service-broker/app/controller.go:180-199 | In every run instances are stopped only on the way to a hand-over, containers made only right after one, and instances started after both |
| `Controller.MicroserviceController.StartMicroserviceByNum` | cmd/service-broker/app/controller.go:119-137 | One instance started and one watcher launched, or nothing changed and the reason told |
| `Controller.MicroserviceController.StartMicroservice` | cmd/service-broker/app/controller.go:100-117 | The loop tries every instance, going on after failures |
| `Controller.MicroserviceController.StopMicroservice` | cmd/service-broker/app/controller.go:147-165 | The loop tries to stop every instance, going on after failures |
| `Controller.MicroserviceController.StopAllMicroservice` | cmd/service-broker/app/controller.go:139-145 | Every known service is stopped once, in some order |
| `Controller.MicroserviceController.SetMicroserviceList` | cmd/service-broker/app/controller.go:34-70 | Every service of the setting gets a container object of its own; the others keep theirs |
| `Controller.MicroserviceController.StartStartupMicroservice` | cmd/service-broker/app/controller.go:72-98 | Every startup service of the setting is started once, in some order |
| `Controller.MicroserviceController.ApplySetting` | cmd/service-broker/app/controller.go:180-199 | Cancel, new context, stop all, set and hand over, create, start, as `Applied` says for some map orders |
| `Controller.MicroserviceController.WatchKanbanForMicroservice` | cmd/service-broker/app/controller.go:167-206 | The loop answers each arrival with a step of the machine until its context ends |
| `Routing.BrokerWatcher.DispatchTo` | cmd/service-broker/app/watcher.go:106-122 | One round of the routing loop on the kanban's record, whose device name it may overwrite; for a device the record itself is queued |
| `Routing.BrokerWatcher.Dispatch` | cmd/service-broker/app/watcher.go:106-123 | The loop that overwrites the record follows the closed form `Dispatched`, queues that record once for every device and nothing else, and leaves `AfterDispatch` in it |
| `Routing.OneDeliveryEach` | cmd/service-broker/app/watcher.go:101-123 | The loop's acts are exactly one delivery per next-service setting, in order: place and address, service, number and kanban are what `Asked` reads off the setting and the kanban; locally the kanban is written to that instance's queue and then its start is requested |
| `Routing.RoutedByKey` | config/project.go:108-121 | A kanban that is not kept back is delivered to the services under its connection key, whatever "default" has; to those under "default" if its key is missing; and to nobody if both are, or the service is unknown |
| `Routing.TerminatesWhenNamed` | cmd/service-broker/app/watcher.go:128-154 | The parser finds a service exactly when the metadata has the type "terminate", the service as a string under "name", and no value without a kind, however deep |
| `Routing.NumberAfterLoading` | config/project.go:61-71 | In a loaded setting the next number is the kanban's own for the pattern "n" or a missing one, and 1 otherwise |
| `Routing.AfterFirstLocal` | cmd/service-broker/app/watcher.go:106-122 | Where each delivery of the loop goes: the kanban's own device name or else the setting's decides up to the first local delivery; afterwards the device's own name if it has one, else the setting's |
| `Routing.RoutedAsConfigured` | cmd/service-broker/app/watcher.go:108-117 | Every delivery goes where the kanban or its setting says exactly when, after the first local choice, these lead to the same place as the device's own name, or the setting's device without one |
| `Routing.RemoteGetsNothing` | cmd/service-broker/app/watcher.go:108-117 | A setting that lists a remote device which gets nothing |
| `Routing.OverwrittenExactly` | internal/devices/controller.go:96-106 | A queued kanban sent after the loop is as it was queued exactly when no later local delivery gave it a different device name |
| `Routing.RunConserves` | cmd/service-broker/app/watcher.go:64-126 | Over a whole run of the watcher, settings changing under way: the deliveries are, kanban by kanban, one for each entry of the service's routing table under its key, or else "default", and none for those kept back |
| `Routing.StopsExactlyAt` | cmd/service-broker/app/watcher.go:85-99 | The watcher takes kanbans exactly up to the first whose metadata asks to terminate a known service that is not always on |
| `Routing.BrokerWatcher.Route` | cmd/service-broker/app/watcher.go:79-125 | One kanban is terminating, dropped or routed, in the order of the code's checks, and queued once for every device it goes to |
| `Routing.BrokerWatcher.WatchMicroservice` | cmd/service-broker/app/watcher.go:64-126 | The loop over kanbans routes each up to the terminating one |
| `Routing.BrokerWatcher.ReceiveKanban` | cmd/service-broker/app/watcher.go:52-60 | A kanban from another device is written to its queue, then its start is requested |
| `Handoff.Conserved` | cmd/service-broker/app/controller.go:172-205 | In every run each setting taken is handed over once, each handed over is deployed once, and each kanban from a device brings one start request, but for the one in progress |
| `Handoff.WatchersConserved` | cmd/service-broker/app/watcher.go:64-126 | A watcher is there from its launch to its end, and waits from each start request until that one is taken |
| `Handoff.MutualBlocking` | cmd/service-broker/app/controller.go:167-206 | The two loops are frozen for ever, neither having returned, exactly when one is at the setting hand-off and the other at the start-request hand-off |
| `Handoff.BlockingReachable` | cmd/service-broker/app/watcher.go:41-62 | That state is reachable before the context ends |
| `Handoff.SettingStillTaken` | cmd/service-broker/app/controller.go:192-192 | In every reachable state a setting on offer can still be taken exactly when the receive loop is at its select; before the context ends, exactly when the loops are not frozen |
| `Handoff.RequestStillTaken` | cmd/service-broker/app/watcher.go:59-59 | In every reachable state a start request can still be taken exactly when the controller is at its select or on its way there; before the context ends, exactly when the loops are not frozen |
| `Handoff.NothingAfterBlocking` | cmd/service-broker/app/controller.go:172-205 | Once blocked, no setting, no kanban from a device and no watcher's start request is ever served again |

## Left out

- gRPC, `Any` packing, dialing and keepalive: a stream is a reliable ordered sequence of messages that may end anywhere; the ten retries of a send are one send that succeeds or fails.
- A kanban message without a status kanban, which makes the server dereference nil.
- The MD5 computation: the digest is an arbitrary function with 16-byte results.
- Links, permissions, disk-full writes, and files that change while being sent or between write and check.
- A file in the place of the service's directory, which makes `os.Stat` report "not a directory" and the server panic, is taken as a failed creation.
- `AION_HOME` and the data directory are absolute paths, as deployed.
- `Transfer.EveryFileArrives`: says nothing about empty directories, because the client lists them but sends no file and the receiver creates none.
- `Trees.TargetIs`: ".." is resolved on the text of the path; the operating system would also look at the piece before it.
- `Routing.BrokerWatcher.WatchMicroservice`: the kanbans come as a list; that they are read from the instance's "after" queue is the subject of `Keys` and `Queue`, and the setting stays the same while one kanban is dispatched.
- Redis connection errors, which end a watcher as a stop without restart does; the IDs' two-part format; the JSON codec, which is a decoding that may fail.
- A panic of the receiver counts as an answer that is not OK; the program forwards the kanban and dies. Sizes and counts too large for the memory are not modelled.
- `Verdicts.DeliveryVerdict`: asks that no folder is listed by an absolute path ending in "..", because its files would be stored beside the output directory, where nothing is assumed to be fresh.
- A metadata struct that is nil, for which the replicator panics.
- NaN and infinite numbers in metadata, and strings that are not valid UTF-8.
- The status channel of the controller in worker mode, and the signal handler that stops all services.
- Pods, config maps and services of Kubernetes: starting and stopping a process succeeds or fails.
- The fields of a setting that neither loading nor the broker's loops read (command, ports, volumes, resources).
- `Routing.BrokerWatcher.Dispatch`: when the sender takes a queued record from the channel, during the loop or after it.
- `Handoff.MutualBlocking`: work between two hand-offs always completes, and sending to other devices never blocks.
- The project server, `aionctl`, the worker monitor, log and environment handling.
