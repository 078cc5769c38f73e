# A verified model of aws-s3fs

aws-s3fs mounts an Amazon S3 bucket as a file system. This project models the parts of it whose correctness is hard
to see by reading one function, and proves what they are for. Run `dafny verify dfyconfig.toml`.

## What is modelled

**The transfer queue** (`Transfer*.dfy`; `src/downloadqueue.c`, with its entry point in `src/filecache.c` and its
tables in `src/filecachedb.c`). Client threads subscribe to a file and sleep; a manager thread gives queued files and
pending uploads to three transfer slots; a downloader publishes its file, wakes every subscriber, waits for the last
one to acknowledge, and frees the entry. `TransferSystem` is a transition system over any number of threads and files.
Each thread is a program, one call at a time, cut at every lock, unlock, wait, signal and database query: `ClientDoes`
is `ClientRequestsDownload` with `ReceiveDownload` and `UnsubscribeFromDownload`, `ManagerDoes` is
`ProcessTransferQueues`, and `DownloaderDoes`, `UploaderDoes` and `PutterDoes` are `BeginDownload`, `BeginUpload` and
`PutUpload`. The decrement of `subscribers` and the acknowledgement are separate steps, and the downloader reads
`subscribers` in a step of its own without `mainLoop_mutex`. `Allowed` says when a call can return and with what
answer, and the `...After` functions say what it does to the shared state. Every transfer may succeed or fail.
`TransferInvariants` states the inductive invariant; `TransferMutexes`, `TransferDownloads`, `TransferSubscribers`,
`TransferManager`, `TransferRows` and `TransferReachable` prove that every step keeps it; `TransferTheorems`,
`TransferFiles`, `TransferUploads`, `TransferProgress`, `TransferOutcome`, `TransferLiveness` and `TransferScheduling`
draw the conclusions. `TransferRuns` builds two runs call by call, one in which the transfer fails and one in which it
ends well, `TransferUploadRun` one with an upload, and `TransferAcknowledgement` settles when an entry is freed in
time. Fields of the state that only the properties read are marked as history.

Assumed: condition variables wake only when they are signalled, the one-minute timeout of the acknowledgement does not
fire, and a database query is one atomic step under `cacheDatabase_mutex`.

**Digests** (`Words.dfy`, `Rotations.dfy`, `Md5Block.dfy`, `Sha1Block.dfy`, `DigestSpec.dfy`, `DigestVectors.dfy`,
`Digest.dfy`, `DigestUses.dfy`; `src/digest.c`). `DigestSpec` defines MD5, SHA-1 and HMAC of whole messages, after RFC
1321, RFC 3174 and RFC 2104. The class `DigestState` is the C structure, with its 128-byte buffer and its two-word
counter; its methods are the C functions, updating it in place. The five registers are one field. The block functions
are treated apart from the streaming. `DigestVectors` computes a published digest of each kind step by step, which
fixes what the code and the definitions share: the tables, the rotation, the order of bytes, the padding and the first
registers.

**Base64** (`Base64Spec.dfy`, `Base64Laws.dfy`, `Base64.dfy`; `src/base64.c`). The build buffer, the flushes and the
growing result are modelled with their sizes, so that a write outside of them would be an error. Memory that the C code
does not initialise has arbitrary contents.

**The caches** (`Recency.dfy`, `StatCache.dfy`, `DirCache.dfy`, `DirCacheTouches.dfy`, `Paths.dfy`, `FileStat.dfy`,
`CacheInvalidation.dfy`, `CacheTraces.dfy`, `CacheRmdir.dfy`; `src/statcache.c`, `src/dircache.c` and the functions of
`src/s3if.c` that drive them). `Recency` is the simple list of names by their last use that both caches refine. Both
cache classes keep ghost ledgers of the entries they have taken over and freed. `Paths` has the functions that make the
keys, and `CacheTraces` is about any sequence of calls with any spelling of their paths; `CacheRmdir` reduces
`S3Rmdir`, which looks at both caches before it changes them, to such a sequence.

**Multipart uploads and grant messages** (`Multipart.dfy`, `GrantMessages.dfy`, `GrantRequests.dfy`,
`GrantExamples.dfy`; `src/filecache.c`, `src/downloadqueue.c`, `src/grant.c`). The number, size and copy of the parts
of a file, the requests that one process prints and the other parses, and the grammar of all requests that the other
process acts upon. User and group numbers have 32 bits; an `int` that overflows, which C leaves undefined, wraps
around.

## Where the code does less than it says

- A request for a file without a row reads an uninitialised flag and may be answered OK (`UnknownFileMayBeOk`).
- A transfer that fails keeps its slot and its subscribers for ever (`SlotIsLostForever`, `StrandedForever`; `StrandedRun` is a run that
  ends like this, and `Quiescence` says that nobody else is left without an answer).
- No query marks a part as being sent, so the manager gives the same upload to every free slot (`UploadTakesEverySlot`). The
  first uploader to end deletes its row; those that look for their part only then find none, and end without giving their
  slots back: `UploadLosesSlots` is a run in which one upload, which ends well, costs two slots for ever.
- The downloader reads `subscribers` without `mainLoop_mutex`. If it reads zero while the last unsubscriber is still on
  its way through `acknowledgeMutex`, it can free the entry, mutex included, under that thread: `UseAfterFree` is a run
  in which a client locks the mutex of a freed entry, and `FreedInTime` the exact condition at the read.
- `EncodeBase64` emits, for a length that is a multiple of three, only the build buffers that were full, and
  `DecodeBase64` has the mirror image of it (`EncodeAndDecode` has the exact law for both).
- A file whose size is a positive multiple of 25 megabytes loses its last chunk (`KeptIsAll`).
- `GetIntParameter` never counts the five digits that it means to allow; the model reads all digits into a 32-bit
  integer, as the code does. `%d` prints a user or group from 2^31 on as a negative number, which is not parsed back:
  `ChownAgrees` has the exact condition.
- A CHUNK request is parsed back exactly for names of the cache (`ChunkAgrees`). The one call
  (`src/downloadqueue.c:1111`) passes the remote path of the file, which begins with a slash (`src/filecache.c:1101`), so
  its request never is (`RemotePathIsLost`).
- `GetFileParameter` passes over the character behind a name, whatever it is, so longer names are accepted
  (`LongerNameIsAccepted`; `RequestIsExact` has all requests that are).
- `CleanPath` never leaves the escaped state, so a backslash ends the path: it gives the path of the components exactly
  when nothing but slashes follows the first backslash (`CleanedIsJoin`; `BackslashLosesName` is a path that loses a
  component).
- `S3FileStat` and `S3Unlink` agree on the key of a path exactly when the first sees no double slash and the second loses
  nothing to a backslash (`StatKeyAgrees`).
- `S3Rmdir` takes the parent of the path as it is given, which is the key of the parent directory exactly when the path
  has no slash at its end and no two in a row (`RawParentKey`). The directory it removes is that of the clean path; the
  two fit exactly when also the first backslash is in the last component (`RmdirKeyAgrees`).
- `S3Rmdir` forgets the listing of what it removes only through `S3Unlink` of the secret file, whose path `CleanPath` cuts at
  a backslash: with a backslash in its clean path, the removed directory keeps its cached listing (`RemovedIsForgotten`).
- `S3CreateLink` invalidates the directory of the target, not that of the link, so the listing of the directory that the
  link is put in stays in the cache without it, unless the target is in the same directory (`LinkIsUnseen`).
- `S3ReadDir` caches what it has received, whole or not. `S3Rmdir` asks for a few files only, and they stay in the cache
  as the listing of a directory that is not empty (`FewFilesAreCached`). If its request fails, the directory is cached
  as empty, and the next `S3Rmdir` takes it for empty whatever is in it (`FailureLooksEmpty`).
- A directory that `S3ReadDir` is asked for with two slashes in a row inside, or with a backslash, is cached under a key that
  neither `S3Unlink` nor `S3Mkdir` invalidates for any path (`DirKeyIsInvalidated`, `StaleListing`; `StatKeyIsDeleted` for
  files and `S3Unlink`). `S3Rmdir` and `S3CreateLink`, with their raw paths, can (`EveryDirKeyIsRawParent`).
- A slot of the directory cache that is invalidated stays empty, and moves to the front, so the cache can forget a name
  while it has a free slot: `ForgetsTooEarly` is such a trace, `InsertedIsLast` the exact condition for one insertion,
  and `SlotsAreTouches` and `SlotsAreTheLatest` the exact law for all traces.
- `InsertCacheElement` neither uses nor frees the entry that it allocates for a name that is already in the stat cache;
  its contract counts what is leaked, and `S3FileStat` leaks nothing.
- The memory for a CHOWN request is for two numbers of five digits: two of six digits overrun it (`LargeIdsOverrun`;
  `RequestsFit` has the exact condition for all three requests).

## Model

| member | source | states |
|---|---|---|
| TransferReachable.ReachableInv | src/downloadqueue.c:166-607 | every state of every run satisfies the inductive invariant: mutex ownership, queue, slots, subscriber counts, cached flags, acknowledgement, manager, table rows |
| TransferTheorems.NoLostWakeUp | src/downloadqueue.c:207-220 | until the broadcast, each thread counted in subscribers sleeps on waitCond or has mainLoop_mutex or waitMutex; after it nobody sleeps there |
| TransferTheorems.BroadcastReleasesAll | src/downloadqueue.c:591-603 | at the broadcast the entry is out of the queue, and the broadcast wakes every thread counted in it |
| TransferTheorems.NobodyJoinsLate | src/downloadqueue.c:178-210 | a thread that finds a subscription subscribes to one that is still queued, for the same file, before its broadcast |
| TransferTheorems.OkMeansCached | src/filecache.c:889-907 | for a known file, OK is sent, and ReceiveDownload leaves its wait, only when the file is marked as cached |
| TransferFiles.CachedExactly | src/filecachedb.c:409-410 | in every state of every run, a file is marked as cached if and only if it was in the first state, or one of its own downloads is past marking it |
| TransferFiles.OkIsEarned | src/filecache.c:889-907 | for a known file, OK is sent only if the file was cached in the first state of the run, or a transfer of that file has ended well earlier in the run |
| TransferFiles.CheckIsAnswered | src/filecache.c:888-907 | a file that reads as cached is answered OK, an unknown one that reads as not cached with an error, and every other goes on to its download |
| TransferFiles.ErrorMeansUnknown | src/filecache.c:897-907 | an error is answered only to a request for an unknown file, and such a request is never queued |
| TransferTheorems.SubscribersAreCounted | src/downloadqueue.c:188-250 | subscribers is the number of threads that have registered and not yet been subtracted |
| TransferTheorems.AcknowledgementComes | src/downloadqueue.c:609-620 | a downloader asleep on acknowledgeCond with count 0 has a last unsubscriber that has yet to signal |
| TransferTheorems.FreedSubscription | src/downloadqueue.c:609-623 | an entry is freed with count 0 and out of the queue; then only its last unsubscriber can still use it, and nobody if the downloader slept until that thread signalled |
| TransferAcknowledgement.FreedInTime | src/downloadqueue.c:609-623 | when the downloader reads the count, no later state of any run has the entry freed while a thread has still to lock, signal or unlock its acknowledgeMutex, if and only if the count is not zero or no thread is doing so at that moment |
| TransferAcknowledgement.UseAfterFree | src/downloadqueue.c:609-623 | there is a run that ends with the entry freed and the client holding its acknowledgeMutex |
| TransferTheorems.ManagerSleepsWithoutWork | src/downloadqueue.c:313-362 | when the manager sleeps and mainLoop_mutex is free, all slots are busy, or all queued downloads are active and no upload has parts to send; while it is held, that or a signal is on its way |
| TransferUploads.StartsWhatIsPending | src/downloadqueue.c:310-321 | whatever happens between the query and the start, an upload is started only in a free slot, which is then busy, and only of a file that has an upload with parts to send |
| TransferUploads.RowsAreOwned | src/filecachedb.c:395-402 | the row of a file changes only by a call of a thread for that file: a client or PutUpload creates it, PutUpload adds parts to it, and a downloader or an uploader deletes it |
| TransferUploads.UploaderAsks | src/downloadqueue.c:1066-1070 | BeginUpload goes to work if and only if its file has an upload with parts to send |
| TransferUploads.FailureEndsThread | src/downloadqueue.c:1158-1175 | a transfer that fails ends its thread, and one that ends well does not |
| TransferUploads.SlotIsLostForever | src/downloadqueue.c:1158-1175 | the slot of a transfer that failed, or of an upload that found no part, is busy and its own in every later state of the run |
| TransferUploadRun.UploadTakesEverySlot | src/downloadqueue.c:310-325 | while an upload has parts to send, the manager does not go to sleep before every slot is busy |
| TransferUploadRun.UploadLosesSlots | src/downloadqueue.c:310-325 | there is a run with one upload, which ends well, and after which two of the three slots belong to uploaders that have ended without giving them back |
| TransferProgress.TakesInOrder | src/downloadqueue.c:178-215 | every thread takes mainLoop, acknowledge, wait and database mutexes in this order |
| TransferProgress.DeadlockFreedom | src/downloadqueue.c:512-620 | no reachable state has a cycle of threads that wait for each other's mutexes |
| TransferProgress.ProgressIsMade | src/downloadqueue.c:166-623 | while some thread has neither ended nor gone to sleep, some thread can go on |
| TransferOutcome.Quiescence | src/downloadqueue.c:166-623 | when no thread can go on, no mutex is held, every downloader has failed or is done, and a client without an answer waits for a failed download or for slots that failed transfers keep |
| TransferOutcome.EverybodyIsAnswered | src/downloadqueue.c:166-623 | if no transfer failed, every client has its answer when no thread can go on |
| TransferOutcome.StrandedForever | src/downloadqueue.c:310-625 | a client that waits for a failed download, or for one that has no slot left to start in, is never woken, however the run goes on |
| TransferOutcome.StrandedRun | src/downloadqueue.c:310-625 | there is a run whose only transfer fails, and whose client sleeps on it |
| TransferLiveness.RunsEnd | src/downloadqueue.c:166-623 | from any reachable state with only downloads, all for registered users, every run without new requests makes at most as many calls as that state allows |
| TransferLiveness.Completes | src/downloadqueue.c:166-623 | from any reachable state with only downloads, all for registered users, there is a run to a state in which no thread can go on |
| TransferLiveness.EveryRunAnswers | src/downloadqueue.c:166-623 | when a run from such a state has ended, as it must, every client has its answer or waits for a failed download or a lost slot, and if no transfer failed every client has its answer |
| TransferScheduling.FindAvailableTransferer | src/downloadqueue.c:385-402 | the loop returns the first ready slot, or -1 |
| TransferScheduling.GetSubscriptionFromDownloadQueue | src/downloadqueue.c:639-654 | the loop returns the first entry that is not being downloaded, or none |
| TransferScheduling.QueueShape | src/downloadqueue.c:204-331 | the queue is a block of active entries followed by all unstarted ones in order of creation |
| TransferScheduling.QueueIsDistinct | src/downloadqueue.c:178-204 | no file is in the queue twice, and entries are in the order of the first requests |
| TransferScheduling.Fairness | src/downloadqueue.c:326-340 | an entry with k unstarted ones ahead of it is started after exactly k other starts |
| TransferScheduling.SlotConservation | src/downloadqueue.c:296-341 | ready slots, running transfers and transfers that ended without success add up to three, and no two threads share a slot |
| TransferScheduling.RowsAreQueued | src/filecachedb.c:396-400 | in runs of downloads for registered users, the transfers rows are the queued files whenever mainLoop_mutex is free |
| TransferScheduling.UnknownFileMayBeOk | src/filecache.c:885-892 | there is a run in which a request for an unknown file is answered OK |
| Md5Block.FF | src/digest.c:134-142 | the optimised form is F of RFC 1321 |
| Md5Block.FG | src/digest.c:144-152 | FF with its arguments turned is G of RFC 1321 |
| Md5Block.Round1 | src/digest.c:746-762 | the first 16 unrolled operations are steps 0 to 15 of RFC 1321, with its table of sines, shifts and words |
| Md5Block.Round2 | src/digest.c:764-780 | the next 16 are steps 16 to 31 |
| Md5Block.Round3 | src/digest.c:782-798 | the next 16 are steps 32 to 47 |
| Md5Block.Round4 | src/digest.c:800-816 | the last 16 are steps 48 to 63 |
| Md5Block.ProcessBlock | src/digest.c:732-822 | one pass of the loop is the block function of RFC 1321, section 3.4 |
| Sha1Block.WordSequence | src/digest.c:1036-1050 | the array W holds the word sequence of RFC 3174 |
| Sha1Block.ProcessBlock | src/digest.c:1052-1108 | the four loops compute the block function of RFC 3174, section 6.1 |
| Rotations.By5 | src/digest.c:83-85 | the rotation by 5, which both digests use, makes the five high-order bits the low-order ones and moves the others up |
| Rotations.By30 | src/digest.c:83-85 | the same for the rotation by 30 of SHA-1 |
| Rotations.By22 | src/digest.c:83-85 | the same for the rotation by 22 of MD5; the module has one such lemma for each of the eighteen shifts |
| DigestVectors.Md5OfAbc | src/digest.c:732-822 | the MD5 digest of "abc" is the one that RFC 1321 publishes in section A.5, from the bits of the message to those of the digest |
| DigestVectors.Sha1OfAbc | src/digest.c:1019-1111 | the SHA-1 digest of "abc" is the one that RFC 3174 publishes in section 7.3 |
| DigestSpec.FoldConcat | src/digest.c:730-829 | processing two runs of blocks one after the other is processing their concatenation |
| Digest.Md5Blocks | src/digest.c:732-822 | the loop over blocks folds the block function over all of them |
| Digest.LengthWords | src/digest.c:427-432 | the shifted counter words are the low and high words of the bit length modulo 2^64 |
| Digest.PaddedTail | src/digest.c:417-432 | what the flush stores behind the message is the padding of RFC 1321, sections 3.1 and 3.2 |
| Digest.AddCarries | src/digest.c:721-728 | the double word increment is addition modulo 2^64 for lengths below 2^32 |
| Digest.BitsCarry | src/digest.c:971-984 | the SHA-1 counter is exact, and overflows exactly at 2^64 bits |
| Digest.DigestState.constructor | src/digest.c:341-358 | the initial state has taken the empty message |
| Digest.DigestState.MD5ProcessBlock | src/digest.c:703-830 | the blocks are appended to those processed, and the registers and the counter follow |
| Digest.DigestState.MD5ProcessContinuous | src/digest.c:633-687 | any piece shorter than 2^32 bytes is appended to the message; at most 64 bytes wait in the buffer between calls |
| Digest.DigestState.MD5FlushState | src/digest.c:400-438 | the result is MD5 of the whole message |
| Digest.DigestState.SHA1ProcessMessageBlock | src/digest.c:1019-1111 | the 64 buffered bytes are one more processed block, and the buffer is empty |
| Digest.DigestState.SHA1Input | src/digest.c:950-995 | any piece is appended to the message; the state is corrupted exactly if 2^64 bits are reached, or for input after the result |
| Digest.DigestState.SHA1PadMessage | src/digest.c:1138-1186 | both branches add the padding of RFC 3174, section 4 |
| Digest.DigestState.SHA1Result | src/digest.c:906-924 | it fails exactly on a corrupted state, otherwise the registers are SHA-1 of the whole message, also when asked again |
| DigestUses.BinDigestToHexDigest | src/digest.c:303-330 | two lower-case hexadecimal digits for each byte |
| DigestUses.HexTextAt | src/digest.c:303-330 | the two digits of each byte, out of 0123456789abcdef |
| DigestUses.EncodeDigest | src/digest.c:484-511 | the encoding asked for; base64 is complete, because 16 and 20 are not multiples of three |
| DigestUses.DigestBuffer | src/digest.c:844-885 | the encoded MD5 or SHA-1 of the buffer |
| DigestUses.DigestPieces | src/digest.c:633-687 | however a message is cut into pieces, the incremental calls give the digest of the whole message |
| DigestUses.DigestStream | src/digest.c:527-622 | whatever lengths the reads return, the digest is that of the whole content, unless a read fails |
| DigestUses.HMAC | src/digest.c:1263-1341 | HMAC of RFC 2104, for keys without zero bytes that are shorter than a block |
| DigestUses.HmacIs | src/digest.c:1306-1336 | HMAC is the digest of the zero-padded key combined with 0x5c, and the digest of the zero-padded key combined with 0x36 and the message |
| DigestUses.KeyBlock | src/digest.c:1285-1303 | the work key is the key padded with zeros to 64 bytes |
| Base64.ToBase64Is | src/base64.c:31-34 | the table is the alphabet of RFC 4648, section 4 |
| Base64.FromBase64Is | src/base64.c:36-47 | the table gives the value of each character of the alphabet |
| Base64.ExpandIs | src/base64.c:84-90 | the masks and shifts split three bytes into four 6-bit values |
| Base64.CompactIs | src/base64.c:205-210 | the masks and shifts put four 6-bit values together |
| Base64.EncodeBase64 | src/base64.c:51-148 | the encoding of RFC 4648 for lengths that are not multiples of three, otherwise that of the flushed blocks; no buffer is overrun |
| Base64.DecodeBase64 | src/base64.c:166-266 | the length of the decoded prefix, and its bytes if it ends with an incomplete group, otherwise those of the stored blocks; no buffer is overrun |
| Base64Spec.RoundTrip | src/base64.c:51-266 | decoding undoes encoding for every byte string |
| Base64Laws.CharIs | src/base64.c:31-34 | the characters of the values 0 to 63 are those of table 1 of RFC 4648, in order |
| Base64Laws.ValueIs | src/base64.c:36-47 | the value of a character of the alphabet is its position in that table |
| Base64Laws.EncodedAt | src/base64.c:84-141 | every character of every encoding: six bits of the bytes in order, or '=' where none of the bits is left |
| Base64Laws.EncodingShape | src/base64.c:51-148 | four characters for every three bytes; those with at least one bit of the bytes are of the alphabet, and all others are '=' |
| Base64Laws.DecodedAt | src/base64.c:166-266 | every byte of every decoding: eight bits of the values of the characters before the first one that is not in the alphabet |
| Base64Laws.LongExamples | src/base64.c:51-148 | examples of RFC 4648, section 10 |
| Base64.EncodeAndDecode | src/base64.c:51-266 | the two functions together return the bytes for every length that is not a multiple of three, and exactly what they return for the others |
| StatCache.Cache.SearchStatEntry | src/statcache.c:56-87 | the data of the entry, which becomes the last one |
| StatCache.Cache.DeleteStatEntry | src/statcache.c:98-131 | the entry is removed, and recorded as freed once |
| StatCache.Cache.TruncateCache | src/statcache.c:142-189 | the oldest entries are freed, in order, until the limit is kept |
| StatCache.Cache.InsertCacheElement | src/statcache.c:203-234 | a new entry is added at the end unless its name is there, in which case it is leaked; the oldest entries are freed until the capacity is kept; every entry ever made is in the cache, freed once, or leaked |
| StatCache.CacheIsSound | src/statcache.c:56-234 | after any trace, names are distinct, the capacity is kept, and the name just accessed is resident |
| StatCache.CacheInclusion | src/statcache.c:56-234 | after any trace, a cache holds the end of what any larger cache holds, and of the list of names by their last use |
| StatCache.CacheIsLeastRecentlyUsed | src/statcache.c:56-234 | without deletions, the cache is exactly the most recently used names, in order |
| StatCache.Coherence | src/s3if.c:725-781 | while the server's answer for a name changes only before a deletion of it, the cached data is that answer |
| StatCache.EntryStays | src/s3if.c:725-781 | the data that an access returned stay in the cache, unless the file is accessed or deleted again, exactly until as many other files as there is room for have been accessed since; deleted ones do not count |
| StatCache.DataStay | src/s3if.c:725-781 | while they stay, they are the same, whatever is done with other files |
| StatCache.Replay | src/s3if.c:725-781 | a cache that is driven through a trace holds what the specification says |
| FileStat.ResolveCacheMiss | src/s3if.c:537-555 | a successful answer is inserted under the name asked for, a failure changes nothing |
| FileStat.S3FileStat | src/s3if.c:690-794 | the cache changes by one access and leaks nothing; the answer is the cached one or, for a miss, the first success of the requests for key, key/ and key/.----s3--dir--do-not-delete, and it is cached; a missing file is remembered, and reported with the status of the last request, later as ENOENT |
| FileStat.ThreeRequests | src/s3if.c:731-765 | the answer of the three requests, in order: the name, the name with a slash, and the secret file in the directory of that name |
| FileStat.SecretNames | src/s3if.c:715-722 | exactly the names that end in that of the secret file are refused |
| DirCache.Cache.constructor | src/dircache.c:52-63 | five slots, all empty |
| DirCache.Cache.ShutdownDirectoryCache | src/dircache.c:71-82 | every accepted entry has then been freed exactly once |
| DirCache.Cache.DeleteLastInDirectoryCache | src/dircache.c:91-115 | the last entry is freed, the others move back by one |
| DirCache.Cache.InsertInDirectoryCache | src/dircache.c:127-152 | a resident directory moves to the front and the memory is not accepted, a new one is put there |
| DirCache.Cache.LookupInDirectoryCache | src/dircache.c:189-231 | the contents of the directory, which moves to the front |
| DirCache.Cache.InvalidateDirectoryCacheElement | src/dircache.c:240-257 | the directory is freed and leaves an empty first slot |
| DirCache.Cache.DeleteDirectoryEntry | src/dircache.c:269-298 | the entry is freed once and its slot is empty |
| DirCache.SlotsAreRecent | src/dircache.c:91-257 | after any trace, no name is in two slots, and the names are the last of all that were read and not invalidated since |
| DirCache.RecentInserted | src/dircache.c:91-151 | a new directory becomes the most recent, and the one in the last slot, if any, is forgotten |
| DirCache.InsertedIsLast | src/dircache.c:91-151 | an insertion keeps the five most recent names if and only if the last slot is free or every slot is taken |
| DirCacheTouches.SlotsAreTouches | src/dircache.c:91-257 | after any trace, the slots are the five latest touches, where an invalidated resident counts as a touch of nothing |
| DirCacheTouches.SlotsAreTheLatest | src/dircache.c:91-257 | after any trace, the slots are the five most recently read names not invalidated since if and only if no invalidated directory is among the five latest touches, or all those names are |
| DirCacheTouches.ListingStays | src/dircache.c:91-257 | a listing is in the cache exactly while its directory is among the five latest touches |
| DirCacheTouches.ForgetsTooEarly | src/dircache.c:91-257 | five reads, an invalidation of the third and a sixth read lose the first name although a slot is free |
| DirCache.InvalidatedMisses | src/dircache.c:240-257 | an invalidated name misses until it is read again |
| DirCache.SlotsAreTheLastFive | src/dircache.c:127-231 | without invalidations, the slots are exactly the five most recently used names, in order |
| DirCache.Coherence | src/dircache.c:91-257 | while a listing changes only before an invalidation, the cache has the listing of the server |
| DirCache.Replay | src/s3if.c:1005-1155 | a cache that is driven through a trace has the slots that the specification says |
| Paths.StripTrailingSlash | src/s3if.c:603-643 | all trailing slashes are removed, but not the first character |
| Paths.GetParentDir | src/s3if.c:565-591 | the path up to its last slash, or the root |
| Paths.CleanPath | src/s3if.c:1800-1851 | runs of slashes become one, a trailing one is removed, and nothing that follows a backslash is kept |
| Paths.FileStatKey | src/s3if.c:704-713 | one leading slash and no trailing one |
| Paths.ReadDirKey | src/s3if.c:990-1003 | one leading slash and no trailing one |
| Paths.CleanedIsJoin | src/s3if.c:1800-1851 | a cleaned path is its components with one slash before each if and only if nothing but slashes follows its first backslash |
| Paths.CleanedIsKept | src/s3if.c:1800-1851 | every cleaned path is the components of what precedes and includes its first backslash, with one slash before each |
| Paths.InvalidatedKey | src/s3if.c:1947-1953 | whatever redundant slashes a path of two or more components has, the invalidated key is the one S3ReadDir uses for its canonical parent if and only if its first backslash is in the last component |
| Paths.InvalidatedRoot | src/s3if.c:1947-1953 | for one component, the invalidated key is the root |
| Paths.StatKeyAgrees | src/s3if.c:1947-1954 | S3FileStat and S3Unlink use the same key if and only if that of S3FileStat has no double slash and nothing but slashes follows the first backslash of the path |
| Paths.RawParentKey | src/s3if.c:2021-2046 | the key that S3Rmdir invalidates is the one S3ReadDir uses for the canonical parent of the path if and only if the path has no slash at its end and no two in a row |
| Paths.RmdirKeyAgrees | src/s3if.c:2021-2046 | the key that S3Rmdir invalidates is the parent of the clean path, which is what it removes, if and only if the path has no slash at its end, no two in a row, and its first backslash in the last component |
| Paths.BackslashTruncates | src/s3if.c:1823-1845 | CleanPath gives the same for a path whatever follows a backslash in it |
| Paths.BackslashLosesName | src/s3if.c:1823-1845 | a path of two components whose cleaned path has one |
| CacheInvalidation.S3.S3ReadDir | src/s3if.c:1005-1155 | the cached listing with success, or what the requests brought in with their status, which is then cached, failed or not |
| CacheInvalidation.S3.S3Unlink | src/s3if.c:1937-1965 | the key of the parent leaves the directory cache and that of the file the stat cache |
| CacheInvalidation.S3.S3Mkdir | src/s3if.c:1870-1928 | the key of the parent leaves the directory cache, and cached attributes of the directory are replaced |
| CacheInvalidation.S3.S3CreateLink | src/s3if.c:1735-1763 | the key of the parent of the target leaves the directory cache, the entry of the link is replaced, and none is leaked |
| CacheRmdir.S3Rmdir | src/s3if.c:2009-2066 | for every answer of the server, the caches change as by a sequence of the calls of CacheTraces; the status, and that only a directory that looks empty is removed |
| CacheRmdir.RemovedIsForgotten | src/s3if.c:2026-2050 | once a directory is removed, its attributes are asked for again, and so is its listing if and only if its clean path has no backslash, or the directory invalidated as its parent is itself |
| CacheRmdir.IsDirectoryEmpty | src/s3if.c:1976-2000 | true exactly if the cached listing, or the received one if its requests succeeded, has no names |
| CacheRmdir.ThroughConcat | src/s3if.c:690-2066 | calls after other calls leave the caches as the longer sequence does, so what is proved of sequences holds of S3Rmdir within them |
| CacheRmdir.FewFilesAreCached | src/s3if.c:1984-1992 | the files that S3Rmdir was listed for a directory that it did not remove are its cached listing, if it had none |
| CacheRmdir.FailureLooksEmpty | src/s3if.c:1984-2022 | after an S3Rmdir whose request for files failed, the directory looks empty to the next one |
| CacheRmdir.LinkIsUnseen | src/s3if.c:1735-1763 | a link leaves what is cached of its directory as it is if and only if nothing is cached or its target has another parent |
| CacheInvalidation.UnlinkThenLook | src/s3if.c:1937-1965 | after S3Unlink of any spelling of a path that CleanPath does not cut, S3ReadDir of its directory and S3FileStat of the file ask the server |
| CacheTraces.DirCoherence | src/s3if.c:990-1155 | after any calls of the six functions, with any spellings, the cached listing under the canonical path of a directory is the server's, while that changes only in calls that change the directory and invalidate its key |
| CacheTraces.FileCoherence | src/s3if.c:690-794 | after any calls of the six functions, with any spellings, the cached answer under the canonical path of a file is the server's, while that changes only when the file is removed or made as a directory or link |
| CacheTraces.DirKeyIsInvalidated | src/s3if.c:990-1003 | for some path S3Unlink or S3Mkdir invalidates the key of S3ReadDir if and only if the key has neither two slashes in a row nor a backslash |
| CacheTraces.EveryDirKeyIsRawParent | src/s3if.c:2021-2046 | for some path S3Rmdir and S3CreateLink invalidate the key of S3ReadDir, whatever it is |
| CacheTraces.StatKeyIsDeleted | src/s3if.c:1947-1954 | for some path S3Unlink or S3Rmdir deletes the key of S3FileStat if and only if the key has no two slashes in a row and nothing follows its first backslash |
| CacheTraces.StaleListing | src/s3if.c:990-1003 | a directory that was read under another key keeps its listing whatever is unlinked next |
| CacheTraces.Replay | src/s3if.c:690-2050 | the two caches, driven through any calls of the six functions, end in the slots and entries that the specification says |
| Multipart.NumberOfMultiparts | src/filecache.c:1215-1239 | the least number of chunks that hold the file, but at most 10,000 |
| GrantExamples.Parts | src/filecache.c:1215-1239 | the number of parts and the announced sizes, in bytes: chunks of 26,214,400, at most 10,000, the last one being what is left |
| Multipart.CreateFileChunk | src/grant.c:355-417 | the copy loop writes exactly the bytes of the part |
| Multipart.AnnouncedIsCopied | src/downloadqueue.c:1233-1240 | the size that CreateFilePart announces is the number of bytes CreateFileChunk copies |
| Multipart.KeptIsAll | src/downloadqueue.c:1233-1240 | the parts hold the whole file if and only if it is empty, or its size is no multiple of a chunk and at most 10,000 chunks; exact multiples lose one chunk |
| Multipart.SizesAddUp | src/downloadqueue.c:1233-1240 | the announced sizes add up to what the parts hold |
| Multipart.Reassemble | src/grant.c:379-417 | the copies of all parts, in order, are the beginning of the file, and all of it under that condition |
| GrantMessages.GetIntParameter | src/grant.c:51-83 | the next digits as a 32-bit number, or -1 if neither ':' nor the end follows, and where they end |
| GrantMessages.GetFileParameter | src/grant.c:94-121 | the next at most six letters and digits, and the position behind the character that ends them |
| GrantMessages.VerifyFilename | src/grant.c:131-150 | true exactly for six letters and digits |
| GrantExamples.CharacterClasses | src/grant.c:59-150 | the digits, the letters, the white space and the punctuation, each character by name |
| GrantExamples.Wraps | src/grant.c:72-76 | the number read is the one of 32 bits that differs from the digits by a multiple of 2^32 |
| GrantMessages.GrantChown | src/grant.c:230-284 | what the request asks for or nothing, and in every case two numbers from 0 to 2^31 - 1 and a name of the cache |
| GrantMessages.GrantPublish | src/grant.c:161-221 | what the request asks for or nothing, and in every case two names of six letters and digits |
| GrantMessages.CreateFileChunk | src/grant.c:296-365 | what the request asks for or nothing, and in every case a part from 0 to 10,000, a name of the cache and a name of six letters and digits |
| GrantMessages.Handle | src/grant.c:458-470 | a request goes to the function for its first word, in upper or lower case (the comparison is the macro in lines 40 to 42); for every request string the action is an allowed one |
| GrantExamples.FirstWords | src/grant.c:40-42 | the first words, letter by letter, in upper or lower case |
| GrantRequests.RequestIsExact | src/grant.c:458-470 | for every request string, an action is taken if and only if the request has its first word and its form |
| GrantRequests.ChownIsExact | src/grant.c:230-284 | exactly the strings for which GrantChown changes the owner, and to which |
| GrantRequests.PublishIsExact | src/grant.c:161-221 | exactly the strings for which GrantPublish moves a file, and which |
| GrantRequests.ChunkIsExact | src/grant.c:296-365 | exactly the strings for which CreateFileChunk copies a part, and which |
| GrantRequests.LongerNameIsAccepted | src/grant.c:94-121 | a longer name is taken for its first six characters |
| GrantMessages.MoveToSharedCache | src/downloadqueue.c:676-724 | the three requests for a downloaded file, in order |
| GrantExamples.PrintedOwners | src/downloadqueue.c:693-712 | two CHOWN requests as they are printed, one with a user that prints as -1 |
| GrantExamples.ParsedRequests | src/grant.c:458-470 | a request of each kind as it is printed, and what is done for it |
| GrantMessages.ChownAgrees | src/downloadqueue.c:693-712 | a printed CHOWN request is parsed back to its user, group and path if and only if both numbers are below 2^31 and the path is a name of the cache |
| GrantMessages.PublishAgrees | src/downloadqueue.c:717-720 | a printed PUBLISH request is parsed back to its directory and file if and only if both are names of six letters and digits |
| GrantMessages.ChunkAgrees | src/downloadqueue.c:1250-1252 | a printed CHUNK request is parsed back to its part, path and chunk file if and only if the part is at most 10,000 and both are names of the cache |
| GrantMessages.RemotePathIsLost | src/downloadqueue.c:1074-1112 | a request with a path that begins with a slash, as the remote path that the one call passes does, is never parsed back |
| GrantMessages.RequestsFit | src/downloadqueue.c:693-720 | a printed CHOWN request fits into the memory allocated for it if and only if its numbers have at most ten characters, a CHUNK request if and only if its part is below 100,000, and a PUBLISH request always |
| GrantMessages.LargeIdsOverrun | src/downloadqueue.c:693-707 | with two numbers of six digits or more, a CHOWN request is at least two characters longer than that memory |

## Left out

- Sockets, CURL, FUSE callbacks, XML parsing, process start-up, signals, logging, configuration and time conversion: input and output without state worth an invariant.
- SQL text and SQLite: the tables that the queue uses are maps, with `file` unique in `transfers`, and each query is one step.
- Uploads: which part of a file an uploader sends; no query marks one as in progress or completed, so every uploader of a file may be told the same one. Uploads appear with their slots and their rows.
- A run in which a condition variable wakes without a signal, or the acknowledgement times out after a minute: excluded by assumption.
- Md5Block.Sine: the table is compared with the constants of the C code, not derived from the sine.
- DigestUses.HMAC: keys of 64 bytes or more, where the code applies strlen to bytes that need not be terminated.
- Digest.DigestState.MD5ProcessContinuous: pieces of 2^32 bytes or more, for which the 32-bit counter loses the carry.
- Big-endian hosts: the words of MD5 are read and written as on a little-endian one.
- FileStat.S3FileStat: the `statonly` flag of the file information, and the attributes themselves, which are one number here; for the root, `AddTrailingSlash` does not terminate its copy (`src/s3if.c:668-678`), which reads as `/` here.
- DirCache.Cache.InsertInDirectoryCache: contents are never NULL, as in its one call; with NULL contents a name could be in two slots.
- Paths.ReadDirKey: the root directory, whose prefix is empty; `StripTrailingSlash` reads before the start of an empty string.
- CacheInvalidation.UnlinkThenLook: a path whose first backslash is followed by more than slashes, for which `CleanedIsJoin` says that another key is used; `DirCoherence` and `FileCoherence` cover such calls too.
- TransferLiveness.RunsEnd: runs with uploads, whose number of parts nothing bounds, and downloads for users without a row in the users table: `Query_GetDownload` then finds no row, and `BeginDownload` goes on with a null path; in the model that download goes on as well.
- CacheRmdir.S3Rmdir: how many files a limited request lists; it may be any.
- GrantMessages.GetFileParameter: bytes behind the terminator of a malformed request, which read as nothing here.
- Multipart.CreateFileChunk: short reads of a file that exists; every read returns all the bytes there are.
- Memory is not modelled except for the buffers of base64, the digests, the caches and the requests.
