# A verified model of a peer-to-peer file sharing node

A node cuts a file into chunks, hashes them into a Merkle tree, and announces metadata and chunks to a
Kademlia network. Another node fetches the metadata, downloads the chunks from whatever peers offer
them, checks each against the Merkle root, puts the file together in a `.part` file and renames it into
place. Either node may crash at any moment and goes on from its disk and its RocksDB store.

The main result, `EndToEnd.RestoredIsPublished`, joins the parts: after every run of a node, with
arbitrary replies from peers, any interleaving of requests, download tasks and the publish queue, any
failing disk and store operations, noticed or not, and any number of crashes, a file at its destination
is byte for byte the published file, or the pieces it was made from contain a hash collision, which is
exhibited.

Some of what one would expect of the program does not hold, and for these there is the run that goes
wrong and the exact condition, among nodes that keep to the assumptions below:

* Metadata is written through a buffer, and a failure of the last write goes unnoticed. Then a record is
  stored whose metadata cannot be read. If it is a pending one, its download cannot be finished. If it is a
  published one, start-up fails at it, at every restart, unless the very file happens to be unreadable
  altogether and is skipped; so nothing that is pending can be finished. `EndToEnd.SurvivalExactly` and
  `NodeSaves.DeliverableExactly` say so exactly, `EndToEnd.DownloadsSurviveCrash` finishes the rest, and
  `NodeSaves.NoticedLosesNothing` shows that all is well in runs without such a failure.
* A file may have the name of another's temporary file, as "a.part" and "a": `EndToEnd.IntegrityExactly`.
* A chunk directory may be used again while a record refers to it, as for "a.b" and "a_b", or when a file is
  published again: `EndToEnd.AlikeNamesMixFiles`, `NodeShared.OverwritingNeedsFreshDirectory`,
  `NodeLimits.DirectoryNeedsToBeFresh`.

## How it is built

| files | what they model |
|---|---|
| `Bytes`, `Keys`, `Domain` | digests, concatenation, file ids and store keys, records and paths |
| `Merkle`, `Chunking`, `FileProcessing` | tree, proofs and chunk verification; splitting, describing and restoring a file, over a reader with short reads and a failing disk |
| `Download` | one pass over the missing chunks: the join loop and its result |
| `Node`, `NodeInvariant`, `NodePreservation`, `NodeSafety` | the whole node as a transition system, its invariant, and that every event keeps it |
| `NodeTheorems`, `NodeResources` | what follows for whole runs: nothing is lost, chunks served verify, the queue, the permits, the active set |
| `NodeRecovery`, `NodeConvergence`, `NodeRestart` | honest runs: a measure, progress under contention, and recovery of all downloads after a crash |
| `NodeLiveness` | any run, honest or not: every task and request ends, none is stuck, and a file can be started again |
| `NodeAnnounced` | what has been announced of pending, downloaded and published files |
| `NodeProgress` | progress over many passes that fail, and over crashes |
| `NodeRefinement` | every outcome of the methods of `FileProcessing`, and of a turn of `Publishing`, is that of a run of the node's steps |
| `NodeSaves` | metadata that failed to be saved without notice, and the start-up that fails at it: what is lost then, exactly |
| `NodeLimits`, `NodeStray`, `NodeShared` | temporary files with other files' names, directories used again while a save is interrupted, and directories of two files: conditions, and the runs that go wrong |
| `EndToEnd` | the node with real chunk verification and published files |
| `Routing`, `Router` | the request router: meaning of its maps, and the class that keeps them |
| `Publishing` | the publish queue, announcements and the job store, as classes |

Code that runs step by step within one task is imperative here: `FileProcessing.Split`,
`FileProcessing.RestoreOriginalFile`, `Download.Collect`, the router and the publish queue are methods
with loops and classes with fields. What is concurrent, the download state machine, is a transition system
whose events are the stretches between two points where the program can be interrupted.

Hashes are an arbitrary function into 32-byte digests. As every such function has collisions, no result
says that one exists: `Merkle.Clash`, `Merkle.ProofClash`, `Merkle.ChunkClash`, `EndToEnd.RootClash` and
`EndToEnd.FileClash` compute the pair from the offending bytes. The hash behind file ids is an arbitrary
function into 8-byte keys; where ids are to differ, its collision is named (`Domain.KeyCollision`).

## Assumptions

* The downloader's metadata is the publisher's, with the directory replaced by its own; the program never
  compares the key of received metadata with the key asked for. It follows that there are as many proofs as
  chunks and that proof bytes decode.
* A request does not use a chunk directory that a stored record has ever referred to, or that another request
  refers to (`Node.DirFree`). The program does not see to that: it derives the directory from the file name by replacing
  dots (`Domain.SharedExactly` says which names collide), and publishing a file again reuses its directory.
  All results about runs of the node are relative to this rule, conditions and "if and only if" included,
  but for those in `NodeLimits` and `NodeShared` about a request that breaks it.
* Destinations of different files differ, and no destination has the name of another file's temporary file
  (`EndToEnd.LaidOut`). `EndToEnd.IntegrityExactly` does without the second. No file is published
  from a chunk directory or downloaded into one, so that a destination is never another file's chunk file.
* Writing a chunk file, appending a chunk to the temporary file, a rename and each store operation are one step
  each. Writing metadata is two: the file is torn in between, and stays so if the second fails, which the
  request may not notice. A torn file does not decode. Nothing else touches the node's files.
* Encoding with CBOR and decoding again gives the same value. The ids of queries, requests and channels are fresh.
* The Merkle library hashes left‖right per pair, promotes an odd last node unchanged, and ignores siblings left over.

## Model

| member | source | states |
|---|---|---|
| EndToEnd.RestoredIsPublished | src/app/file_download_service.rs:99-283 | In every state of every run from the initial one, crashes and hostile peers included, a file at its destination is the published file or its pieces contain the exhibited collision, and every published record has its file in place. |
| EndToEnd.DownloadsSurviveCrash | src/app/p2p/service.rs:206-225 | From every state a run can reach, after a crash and if start-up gets over, there is a continuation after which just the records with unreadable metadata are pending, and every other file that was is recorded as published from its own directory and in place there as it was published (or with a collision). |
| EndToEnd.SurvivalExactly | src/app/p2p/service.rs:206-208 | Without skipping a metadata file such a continuation exists if and only if no published file has lost its metadata, or no pending download has kept it; and if one has, nothing is published or finished any more over every restart. |
| EndToEnd.IntegrityExactly | src/app/file_processing/processing.rs:176-192 | Files whose destinations differ, each with its own chunk directory and outside those of others, stay intact over every run if and only if none has the name of another's temporary file. |
| EndToEnd.PartDestroysFile | src/app/file_processing/processing.rs:189-192 | For any two such files, a run in which the user gives the second to be published and then downloads the first, which empties the file that is there. |
| EndToEnd.AlikeNamesMixFiles | src/app/file_processing/processing.rs:32-34 | For files whose names differ only in dots and underscores, runs without a failure after which both are recorded as published, the first is not at its destination, and at the second's are the first chunks of the first. |
| EndToEnd.PartBreaksIntegrity | src/app/file_processing/processing.rs:178-192 | For two files named like "a" and "a.part", a run from the initial state, without a failure, after which the second is recorded as published and its destination is empty, and there is no collision to blame. |
| EndToEnd.AcceptedPiecesMakeTheFile | src/app/file_processing/processing.rs:194-203 | Pieces that all pass verification concatenate to the published file, unless the first differing piece yields a collision. |
| EndToEnd.PublishedIsGenuine | src/app/file_processing/processing.rs:100-118 | What a publisher computes for any non-empty file passes verification chunk by chunk, so that published files satisfy what the node's invariant asks of them. |
| Merkle.ClimbProof | src/app/file_processing/processing.rs:101-108 | The proof of leaf i leads back to the root, for every number of leaves, with promoted nodes at any layer. |
| Merkle.Clash | src/app/utils.rs:42-52 | A path that leads a wrong node to the root contains two different inputs with one hash, and returns them. |
| Merkle.Completeness | src/app/utils.rs:42-52 | Verification accepts chunk i with the stored proof, root and leaf count. |
| Merkle.Soundness | src/app/utils.rs:42-52 | Whatever the proof bytes, an accepted chunk is the original one or a collision is at hand. |
| Merkle.DecodeEncodeProof | src/app/file_processing/processing.rs:106-108 | Decoding undoes the encoding of a proof as concatenated digests. |
| Merkle.DecodableIff | src/app/utils.rs:50 | Proof bytes decode, and verification does not panic, exactly if their length is a multiple of the digest size. |
| Merkle.RootSplits | src/app/file_processing/processing.rs:100-104 | The root is h(left‖right), where the left tree has as many leaves as the largest power of two below their number; the root of a single leaf is the leaf. |
| Merkle.ProofSplits | src/app/file_processing/processing.rs:106-108 | The proof of a leaf is its proof in its half, and then the root of the other half. |
| Merkle.ClimbNeeds | src/app/utils.rs:49-51 | A path leads to some root if and only if it has as many siblings as the proof, and what it has beyond them does not matter. |
| Merkle.ProofsAccepted | src/app/utils.rs:42-52 | A genuine chunk is accepted with proof bytes that start with the stored ones and divide into digests, and with no others unless a collision is at hand; the verification panics if and only if they do not divide. |
| Merkle.EncodeProofAt | src/app/file_processing/processing.rs:106-108 | Digest i of a proof is at its place among the stored bytes, and there is nothing else. |
| Keys.RoundTrip | src/app/file_store/domain.rs:67-89 | File id to key and key to file id undo each other. |
| Keys.BeforeIsLess | src/app/file_store/domain.rs:67-89 | The bytewise order of keys is the numeric order of ids. |
| Keys.FirstIsLeastId | src/app/file_store/rocksdb.rs:258-275 | The key first in the store is the one with the least file id, in both directions. |
| Chunking.ChunkCount | src/app/file_processing/processing.rs:127-159 | The number of chunks is the file size divided by the chunk size, rounded up. |
| Chunking.ChunksDivide | src/app/file_processing/processing.rs:127-159 | The chunks are non-empty, full but for the last, and concatenate to the file. |
| Chunking.ChunkingUnique | src/app/file_processing/processing.rs:127-159 | There is no other division with these properties. |
| Chunking.WithChunksFiles | src/app/file_processing/processing.rs:149-154 | After the chunk files are written, file k holds chunk k and all other files are as before. |
| FileProcessing.Fill | src/app/file_processing/processing.rs:133-143 | Whatever the sizes of the reads, the buffer's prefix is the next part of the file, and it is full unless the file has ended. |
| FileProcessing.Split | src/app/file_processing/processing.rs:123-159 | Ends; the chunk files are the ideal chunks and the result their hashes in order; after an error a prefix of the chunks has been written. |
| FileProcessing.ProcessFile | src/app/file_processing/processing.rs:71-121 | Succeeds for a non-empty regular file unless a noticed operation fails, with its chunks on disk, and with its metadata on disk exactly if nothing has failed; every error with its cause and with what it leaves behind. |
| FileProcessing.RestoreOriginalFile | src/app/file_processing/processing.rs:161-211 | The destination becomes the concatenation of the chunk files, or was there before; an error leaves nothing or a temporary file of some of the chunks; and wherever it stops, nothing but the temporary file differs from before until the whole is in place. |
| FileProcessing.RestoreUndoesSplit | src/app/file_processing/processing.rs:71-211 | The files left by splitting are restored to the file that was split. |
| Download.Missing | src/app/file_download_service.rs:110-135 | One chunk task for every chunk not downloaded, none twice. |
| Download.CountIsComplete | src/app/file_download_service.rs:181-183 | The comparison of sizes means that all chunks are there. |
| Download.PassExact | src/app/file_download_service.rs:139-184 | For results in any order, the pass returns true exactly if all chunks are downloaded, and false or an error means that some chunk is missing. |
| Download.Collect | src/app/file_download_service.rs:139-184 | The join loop does just that, returns the first error, and persists ever larger versions of the record, the store ending with one of them. |
| NodeSafety.RunInv | src/app/file_download_service.rs:35-283 | The invariant of disk, store and memory holds after every run: destinations complete or absent, recorded chunks on disk and verified, announced chunks on disk and verified, metadata its own file's or torn. |
| NodeSafety.StepInv | src/app/file_download_service.rs:99-283 | Every single event keeps the invariant, a crash and a failure that nobody notices included. |
| NodeSafety.PublishChunkInv | src/app/file_processing/processing.rs:149-154 | Writing a chunk of a file being published keeps it, whatever else is going on. |
| NodeSafety.StoreRecordInv | src/app/grpc/server.rs:52-148 | Storing the job or the pending record at the end of a request keeps it, also over torn metadata. |
| NodeSafety.VerifyAndSaveInv | src/app/file_download_service.rs:226-262 | A chunk file is written only with verified bytes, so recorded chunks stay verified. |
| NodeSafety.JoinInv | src/app/file_download_service.rs:139-154 | Recording a chunk, persisted or not, keeps recorded ids below the proof count and on disk. |
| NodeSafety.PassComplete | src/app/file_download_service.rs:181-184 | When all chunk tasks of a task are joined, it goes on to restore the file if every chunk is recorded, and otherwise ends. |
| NodeSafety.OpenPartInv | src/app/file_processing/processing.rs:176-192 | Taking an existing destination for the restored file is sound, and starting a temporary file destroys nothing. |
| NodeSafety.AppendChunkInv | src/app/file_processing/processing.rs:194-203 | The temporary file is the concatenation of the verified chunks read so far. |
| NodeSafety.RenamePartInv | src/app/file_processing/processing.rs:208 | The rename makes the destination complete at once. |
| NodeSafety.PutPublishedInv | src/app/file_download_service.rs:270-277 | A file is recorded as published only when complete. |
| NodeSafety.RecordPublishedInv | src/app/p2p/events.rs:255-265 | So it is by the publish queue. |
| NodeTheorems.RunGrows | src/app/file_download_service.rs:226-283 | Verified chunks stay verified and restored files stay complete over every run. |
| NodeTheorems.RunLosesNothing | src/app/file_download_service.rs:264-283 | What was pending is pending or published, a job is a job or published, and the published stays published, over every run. |
| NodeTheorems.RunLookUps | src/app/grpc/server.rs:67-91 | Over every run: once a file is published no request for it begins, and while it is pending none asks for its metadata. |
| NodeTheorems.ServedChunkVerifies | src/app/p2p/events.rs:551-704 | A chunk of a published file, or one that a pending download has recorded, is served if and only if its number is valid and the metadata readable, and then with bytes the requester accepts, whatever happens between the reads; with neither the answer is that it is not found. |
| NodeTheorems.JobClearedWhenPublished | src/app/p2p/events.rs:232-277 | A job is deleted only when metadata and all chunks have been announced and the published record is there. |
| NodeTheorems.RecordsStayApart | src/app/p2p/events.rs:255-265 | Recording a file as published leaves the record of a file alone that differs in name, chunk count, root or visibility, unless the key hash collides. |
| NodeTheorems.QueueShrinks | src/app/p2p/events.rs:232-277 | While no job is added, the jobs left and the turns completed add up to the jobs there were, over every run. |
| NodeTheorems.TaskAdvances | src/app/file_download_service.rs:59-89 | Over its life a task's phase and downloaded chunks only advance, and after its pass it never writes its pending record again, so not after deleting it. |
| NodeResources.RunResources | src/app/file_download_service.rs:35-135 | In every state free permits and chunk tasks holding one add up to the maximum, and the active set is exactly the keys of live tasks, one task a key. |
| NodeLimits.PartNeedsItsOwnName | src/app/file_processing/processing.rs:176-192 | Beginning to restore keeps all-or-nothing if and only if the temporary file is nobody's destination. |
| NodeStray.StrayPartIsPublished | src/app/file_download_service.rs:264-283 | The run behind the "only if", for any two such files: both are requested, started and fetched, the first begins its temporary file, and the second is recorded as published with that for its content. |
| NodeLimits.DirectoryNeedsToBeFresh | src/app/grpc/server.rs:118-138 | A crash while metadata is being saved in a directory leaves no record without its metadata, then or in any run in which failures to save are noticed, if and only if no pending, published or job record refers to the directory. |
| NodeSaves.DeadForEver | src/app/file_download_service.rs:105-108 | As long as later requests keep away from a directory in use whose metadata is torn: over every run and restart it stays torn, no task gets past reading it, and no download is published from the directory. |
| NodeLimits.RestartFailsExactly | src/app/p2p/events.rs:214-230 | If announcing worked before, it fails at the restart after such a crash if and only if a published record refers to the directory, and goes on failing as long as one does. |
| NodeSaves.AnnouncingFailsExactly | src/app/p2p/events.rs:214-230 | In every state that keeps the invariant, announcing again meets something it cannot decode if and only if a published record lacks readable metadata. |
| NodeSaves.NoticedLosesNothing | src/app/utils.rs:33-40 | In runs from the beginning in which failures to save metadata are noticed, every record has its metadata, every pending download can be finished, and announcing works. |
| NodeSaves.RunSavesTorn | src/app/utils.rs:33-40 | Over every run: wherever the node crashes while a request is saving metadata, to publish or to download, it leaves torn metadata. |
| NodeSaves.DeliverableExactly | src/app/file_download_service.rs:105-108 | After a crash, a pending download that is not yet recorded as published from its directory, for which there is no publish job either, is brought to its end by some run if and only if its metadata can be read; and by some run that skips no file at start-up if and only if moreover no published file has lost its metadata. |
| NodeSaves.SurvivesExactly | src/app/p2p/service.rs:206-208 | The same of all pending downloads together. |
| NodeSaves.StalledForEver | src/app/p2p/service.rs:206-208 | While a published file's metadata is torn and not skipped, start-up is never over, and nothing is published or finished, over every restart. |
| NodeSaves.StartsUpExactly | src/app/p2p/events.rs:214-230 | Start-up gets over if and only if announcing the published files that are not skipped meets nothing it cannot decode. |
| NodeSaves.StartUpRefines | src/app/p2p/events.rs:214-230 | And then exactly the record keys have been added that announcing again adds. |
| NodeRefinement.FailedStartUpRefines | src/app/p2p/events.rs:214-230 | A start-up that fails somewhere behind the first n chunks of a file has added the keys that announcing it so far adds. |
| NodeSaves.UnnoticedStrandsDownload | src/app/grpc/server.rs:138-155 | From the beginning, a run in which a request stores its record over torn metadata, and the directory is dead. |
| NodeSaves.UnnoticedStopsNode | src/app/file_processing/processing.rs:110-120 | From the beginning, a run in which a file is published over torn metadata, and announcing fails at the next start. |
| NodeSaves.UnnoticedBlocksDownloads | src/app/p2p/service.rs:206-208 | From the beginning, such a run with another download pending and its metadata intact, which after a crash no run finishes that does not skip the torn file. |
| NodeShared.OverwritingNeedsFreshDirectory | src/app/grpc/server.rs:118-141 | Saving metadata of another file in a directory leaves every record with metadata of its own file, then and in any run, if and only if no record refers to the directory. |
| NodeShared.SharedDirectoryMixes | src/app/file_download_service.rs:264-283 | The run behind the mixed files, for any two files in one directory, the second with no more chunks than the first. |
| Domain.SharedExactly | src/app/file_processing/processing.rs:32-34 | Two names get one chunk directory if and only if they differ at most in dots and underscores. |
| Domain.KeyTellsApart | src/app/file_processing/processing.rs:25-44 | Two files have one id if and only if name, chunk count, root and visibility are equal, or what differs is a collision of the key hash. |
| EndToEnd.RootIdentifies | src/app/file_processing/processing.rs:100-104 | Files with equally many chunks and one root have the same bytes, or the first chunk that differs yields a collision. |
| EndToEnd.IdIdentifies | src/app/file_processing/processing.rs:25-44 | Published files with one id have the same name, visibility and bytes, wherever they are, or one of the hashes collides; and files that have all that in common have one id. |
| NodeLimits.RepublishingKills | src/app/file_processing/processing.rs:95-120 | Publishing a published file again has steps after which, at a crash, its directory is dead and announcing fails. |
| NodeRecovery.HonestAdvances | src/app/file_download_service.rs:139-183 | With a peer that answers with the published chunk and no failures, every event of a download task lowers its measure. |
| NodeRecovery.OthersKeepWorking | src/app/file_download_service.rs:46-90 | Events of other tasks, requests and the queue leave a healthy task, its measure and what it has delivered as they are; only a request for the same file makes it pending again. |
| NodeConvergence.HonestRunEndsWell | src/app/file_download_service.rs:99-283 | Every honest run of a task, interleaved with anything else but a crash, is bounded by the measure; when the task is gone its file is complete in its own directory and recorded as published, and not pending unless a request for the same file has come in meanwhile. |
| NodeConvergence.NotStuck | src/app/file_download_service.rs:125-184 | A healthy task always has an honest event to go on with, unless it cannot read its metadata, or waits for a permit while all permits are with other tasks. |
| NodeConvergence.SomeoneGoesOn | src/app/file_download_service.rs:125-135 | Then a holder of a permit has one: of all tasks that have their metadata, one can always go on. |
| NodeConvergence.BringAllToEnd | src/app/file_download_service.rs:125-283 | All healthy tasks of a node but those without metadata can be brought to their end by honest events of their own, however few the permits; the others, and what is stored under other keys, are untouched. |
| NodeLiveness.OwnEventLowers | src/app/file_download_service.rs:99-283 | Whatever peers reply and whatever fails, every event of a task leaves it less to do. |
| NodeLiveness.TaskEnds | src/app/file_download_service.rs:59-89 | So over every run without a crash it takes part in no more events than its measure, honest or not. |
| NodeLiveness.NeverStuck | src/app/file_download_service.rs:99-283 | Until it is gone a task always has an event of its own, unless it waits for a permit and all are with others. |
| NodeLiveness.NoDeadlock | src/app/file_download_service.rs:125-135 | And then one of those has: as long as there are tasks, one of them can go on. |
| NodeLiveness.GoneIsInactive | src/app/file_download_service.rs:84-87 | A task disappears only at its end, and then its key is not active. |
| NodeLiveness.NextRecordExactly | src/app/file_download_service.rs:41-60 | The scheduler starts a task exactly if a permit is free and the key not active, goes on with the rest of the stream if one is free, and gives the stream up if none is. |
| NodeLiveness.TickStarts | src/app/file_download_service.rs:35-60 | A running node that has a free permit comes to start any pending file whose key is not active, from its stored record. |
| NodeLiveness.RequestEnds | src/app/grpc/server.rs:118-158 | Over every run, whatever fails: a request, to publish or to download, takes a bounded number of steps, stores its record or fails to at most once, and is over then. |
| NodeLiveness.TurnGoesOn | src/app/p2p/events.rs:232-277 | Whatever fails, until a job is removed or the node crashes, the worker keeps to it and never goes back from recording the file or from removing the job. |
| NodeAnnounced.RunAnnounced | src/app/file_download_service.rs:202-216 | Over every run: no download is pending unless its metadata has been announced, no chunk recorded as downloaded, stored or in memory, unless it has been, and no file published unless all of it has been. |
| NodeAnnounced.HonestRunAnnounces | src/app/file_download_service.rs:264-283 | When a healthy task is gone after an honest run, the metadata and every chunk of its file have been announced, whether or not the request announced the metadata. |
| NodeRestart.Schedule | src/app/file_download_service.rs:35-97 | When start-up is over, the scheduler starts a task for every pending download. |
| NodeRestart.CrashedDownloadsComplete | src/app/file_download_service.rs:264-283 | From any crash point from which start-up gets over, everything that was pending and has readable metadata can be brought to published from its own directory, complete there and not pending, and the rest is as it was: restoring, putting and deleting can be repeated. |
| NodeProgress.RunProgress | src/app/file_download_service.rs:139-154 | Over every run, crashes and failing passes included, each persisted chunk of a download is one fewer missing, if no stale record is started and no request renews it. |
| NodeProgress.PassesBound | src/app/file_download_service.rs:139-184 | There are no more passes that persist a chunk than chunks missing, and after as many none is missing. |
| NodeProgress.CompletePassSucceeds | src/app/file_download_service.rs:110-117 | When none is missing, a pass has no chunk to fetch and leads to completion. |
| NodeRestart.AnyFileCanBeDownloaded | src/app/grpc/server.rs:61-158 | From the initial state there is a run, by way of a request and even a crash, that ends with the file of any given directory complete in it, published from it and not pending. |
| NodeRefinement.RestoringRefines | src/app/file_processing/processing.rs:161-211 | Every outcome the restoring method can have, errors included, is that of a run of the node's steps: same files, and the task goes on to publish or has ended. |
| NodeRefinement.ProcessingRefines | src/app/file_processing/processing.rs:71-121 | Every outcome the processing method can have, errors included, is that of a run of the node's steps: same files and metadata, and the request goes on or is over. |
| NodeRefinement.QueueTurnRefines | src/app/p2p/events.rs:232-253 | With a job and an idle worker a turn can always be taken; it adds exactly the record keys of the file, and makes of published records and jobs what a turn of `Publishing` makes of them. |
| NodeRefinement.FailedAttemptRefines | src/app/p2p/events.rs:239-242 | An attempt at announcing that fails behind the first n chunks adds their keys and begins anew. |
| Publishing.Store.NextFileMetadata | src/app/file_store/rocksdb.rs:253-288 | The first job in key order, an error if it does not decode, and no answer while there is none. |
| Publishing.EventService.ProvideAll | src/app/p2p/events.rs:201-212 | Announces exactly the metadata and chunks 0 to total-1 with their records, or fails with a prefix announced. |
| Publishing.EventService.ProvideAllPublishedFiles | src/app/p2p/events.rs:214-230 | Success means that exactly the keys of published files whose metadata file was read were added, one file skipped for each failing read; it fails only if something else fails or does not decode. |
| Publishing.EventService.AddPublishedFile | src/app/p2p/events.rs:255-265 | Retries until the record is stored. |
| Publishing.EventService.DeleteFileMetadata | src/app/p2p/events.rs:267-277 | Retries until the job is gone. |
| Publishing.EventService.FilePublish | src/app/p2p/events.rs:232-253 | For a job: all announced, the file recorded as published, just this job removed. For an error: nothing. |
| Publishing.EventService.Turn | src/app/p2p/service.rs:219 | The queue after a turn is a function of the queue before, and a removed job was decodable, announced and recorded. |
| Publishing.EventService.Turns | src/app/p2p/service.rs:213-225 | Turn after turn, with failing reads: as many turns as jobs and failures leave just the stuck jobs, and each job gone was announced and recorded. |
| Publishing.QueueSettles | src/app/file_store/rocksdb.rs:253-288 | After as many turns as jobs, just those jobs are left that do not decode or have a key behind one that does not. |
| Publishing.QueueDrains | src/app/p2p/events.rs:232-277 | The queue is empty after n turns if and only if n is at least the number of jobs and all of them decode. |
| Routing.RunOk | src/app/p2p/events.rs:72-105 | Over every sequence of commands and events each channel is waiting at one query, waiting at one request, or answered, and an answer is final. |
| Routing.StepOk | src/app/p2p/events.rs:378-436 | Every command and event keeps this, and whoever was contacted is among the providers seen. |
| Routing.ReplyReachesItsRequest | src/app/p2p/events.rs:596-604 | A reply goes to the one channel on which that request was asked, which had no answer before. |
| Routing.LookupCollects | src/app/p2p/events.rs:384-397 | While a query is open it collects the union of the batches reported for it. |
| Routing.RunSingle | src/app/p2p/events.rs:407-436 | Over every run, no request has been sent for an open query, and at most one for any query. |
| Routing.LookupConcludes | src/app/p2p/events.rs:384-436 | A whole lookup sends exactly one request, to a provider of some batch, if there was any, and otherwise answers with nothing and sends none. |
| Routing.NotSerialised | src/app/p2p/events.rs:86-96 | A request that cannot be serialised is answered with nothing, for good over every run, and nobody is asked. |
| Router.ChooseRandom | src/app/utils.rs:54-64 | A member of the set, and none only for the empty set. |
| Router.EventService.QueriesDisjoint | src/app/p2p/events.rs:389-393 | No query is in both provider maps. |
| Router.EventService.RequestMetadata | src/app/p2p/events.rs:72-85 | The command is the asking event of the routing model. |
| Router.EventService.RequestFileChunk | src/app/p2p/events.rs:86-109 | So it is for chunks, answered with nothing if the request cannot be serialised. |
| Router.EventService.FoundProviders | src/app/p2p/events.rs:385-394 | A batch is added to its query's providers, or to none. |
| Router.EventService.AllPossibleProvidersFound | src/app/p2p/events.rs:407-436 | The end of a query, exhausted or failed, is the concluding event, with an admissible choice. |
| Router.EventService.MetadataResponse | src/app/p2p/events.rs:479-549 | A metadata reply is passed on if it decodes, anything else as nothing, to the channel of its request. |
| Router.EventService.FileDownloadResponse | src/app/p2p/events.rs:508-604 | A chunk reply is passed on as it is to the channel of its request. |

## Left out

- libp2p, Kademlia, gossipsub, mDNS, identify and relays: only providers found, queries ended and replies appear, as events.
- SHA-256, CBOR, RocksDB and the Merkle library are assumed as described above; the library's verification for an index beyond the leaf count is taken to reject.
- gRPC, the command line, configuration, key pairs, logging, the order in which the server starts its services, and file search with its result cache.
- Replies to metadata requests: they read one file of a published record, which the invariant says is there.
- The concurrent download service is a transition system and not a class: its shared set, semaphore and tasks are fields of the node's memory. `Download.Collect` has the join loop as a loop. File system, store and event service appear both in the node and as classes; `NodeRefinement` relates them.
- An announcement by a request or a download counts once its command has been sent: that carrying it out fails is only logged by the program. It counts for ever: expiring records, and that after a restart only published files are announced again, are not modelled.
- Time: delays, ticks and channel capacities are choices of when an event happens. That failures stop is assumed only where a retry loop is to end (`faults` in `Publishing`).
- File system errors other than failing operations: an existing destination that is no regular file, a path without a parent directory or a file name.
- The temporary file between two chunks: buffered writes may reach the disk in other portions; its content matters only when it is renamed.
- Pending or published records that do not decode in the download state machine, and failing reads while a chunk is served, which are answered with an error.
- Directories in use by two files at once, other than in the runs of `NodeShared` and `NodeLimits`: the transition system has one file per directory.
- The width of integers: chunk numbers and counts are unbounded.
- Permits do not bound the number of files being downloaded, pending and published are not disjoint, and a stale record in a running stream may start a finished download again and make it pending again; nothing here claims otherwise.
- A request need not ever be answered: failure events of the network are only logged by the program, and so are no events here.
