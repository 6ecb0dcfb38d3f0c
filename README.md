# Chunk worker and download queues of megabasterd

This project models two pieces of the MEGA downloader's bookkeeping and
proves what they promise.

**The chunk worker** (`ChunkWorker`, `chunk_worker.dfy`) models the body of
the `while` loop in `ChunkDownloader.run()`. It does this once the HTTP
connection, the streams, the clock and the proxy pool are reduced to the
answers they give. A `Worker` object keeps the loop variables that carry
over from one attempt to the next as fields:

- `worker_url`
- `http_error`
- `conta_error`
- `slow_proxy`
- `current_smart_proxy`

It also keeps the proxies handed to `blockProxy`, the shared
partial-progress counter, the list of rejected chunk ids, and the download
directory. The directory is a map from `<name>.chunk<id>` and
`<name>.chunk<id>.tmp` to file lengths.

One attempt works like this:

- It refreshes the URL when needed.
- It asks for a chunk, which is either granted or ends the loop.
- It picks a direct, fixed-proxy or smart-proxy route.
- It reads the body into the `.tmp` file, or recovers a chunk file that is
  already complete.
- On success it renames the `.tmp` file onto the chunk file.
- On failure it rolls back the progress, deletes the `.tmp` file, rejects
  the chunk, and may back off.

The pure function `Step` states what one attempt does. `RunSpec` states
what the whole loop does. The methods of `Worker` are proved to compute
exactly these functions, and the lemmas state the rules of the loop in
terms of `Step`.

**The download manager** (`DownloadQueues`, `download_manager.dfy`) models
`remove(Transference[])` and `_provision(Download, boolean)`. These update
three collections in place: wait-start, running and finished. They also
keep a running total of the sizes of provisioned downloads.

- `Collection.remove(Object)` takes out the first occurrence of an object
  only. The model does the same with `RemoveFirst`.
- A download's `id` stands for its object identity. The Java collections
  compare downloads by reference, so the model finds a download by its `id`
  alone, whatever its other fields hold.

## Model

| member | source | states |
|---|---|---|
| `ChunkWorker.DrainFrom` | src/main/java/com/tonikelope/megabasterd/ChunkDownloader.java:253-259 | the read loop consumes reads from position `i` onward, never more than there are, and never lowers the byte count |
| `ChunkWorker.DrainFacts` | src/main/java/com/tonikelope/megabasterd/ChunkDownloader.java:253-259 | the bytes read are the sum of the reads consumed; reading stops at the first read that reaches the chunk size, or at the end of the stream; when the manager is exiting, nothing is read; an exception escapes exactly when the stream ended short by a timeout or an I/O failure, and it is a timeout exactly when the stream timed out |
| `ChunkWorker.ProgressOfAttempt` | src/main/java/com/tonikelope/megabasterd/ChunkDownloader.java:253-367 | an attempt on a chunk changes the progress counter by the chunk size if it succeeds, and by nothing if it fails |
| `ChunkWorker.SuccessIffFullChunk` | src/main/java/com/tonikelope/megabasterd/ChunkDownloader.java:304 | for a chunk of positive size, an attempt succeeds exactly when the bytes read equal the chunk size |
| `ChunkWorker.SuccessCommits` | src/main/java/com/tonikelope/megabasterd/ChunkDownloader.java:304-321 | after a success on a 200 answer: the error counter and the status error are 0; nothing is rejected; the chunk file exists with the chunk's size; the `.tmp` the attempt wrote is gone; no other file changed |
| `ChunkWorker.RecoveryWithoutDownload` | src/main/java/com/tonikelope/megabasterd/ChunkDownloader.java:241-300 | with a chunk file of exactly the chunk size and a 200 answer, the attempt succeeds without touching the directory, and the progress grows by exactly the chunk size |
| `ChunkWorker.UnopenedBodyFails` | src/main/java/com/tonikelope/megabasterd/ChunkDownloader.java:233-243 | when opening the body stream after a 200 throws, the attempt fails before the chunk file is looked at: nothing is read or recovered, the directory (a stale `.tmp` included) is unchanged, the chunk is rejected, the progress is unchanged, the status error is 0, and a timeout there does not back off |
| `ChunkWorker.FailureRollsBack` | src/main/java/com/tonikelope/megabasterd/ChunkDownloader.java:350-367 | a failed attempt appends its chunk id to the rejected ids, leaves the progress as it found it, deletes the `.tmp` it wrote and changes no other file |
| `ChunkWorker.FlagsComeFromThisAttempt` | src/main/java/com/tonikelope/megabasterd/ChunkDownloader.java:203-211 | a status error left after an attempt is this attempt's non-200 status and means failure; the slow flag is set only by a success through a smart proxy judged slow; a timeout means failure while running |
| `ChunkWorker.UrlRefresh` | src/main/java/com/tonikelope/megabasterd/ChunkDownloader.java:114-117 | the URL is replaced by a fresh one exactly when none is held or the last attempt ended with 403; otherwise it is kept |
| `ChunkWorker.SmartProxyRule` | src/main/java/com/tonikelope/megabasterd/ChunkDownloader.java:129-191 | a smart proxy is used only after a 509 or a slow proxy, in smart mode, without a fixed proxy; on that path the block list gains exactly the proxy in use (nothing when none is in use), the pool is asked with that list, and the connection goes through the proxy it offers or direct when it offers none; off that path the proxy in use is cleared, the block list is unchanged and the route is the fixed proxy or direct |
| `ChunkWorker.BackoffRule` | src/main/java/com/tonikelope/megabasterd/ChunkDownloader.java:369-375 | a backoff happens exactly on a failure while not exiting or stopped, with no timeout, no 509 in smart mode and no 403; its argument is the incremented error counter; otherwise the counter is reset by a success or kept |
| `ChunkWorker.ForbiddenRefreshesNext` | src/main/java/com/tonikelope/megabasterd/ChunkDownloader.java:114-117 | after an attempt answered 403, the next attempt fetches a fresh URL |
| `ChunkWorker.SuccessKeepsUrl` | src/main/java/com/tonikelope/megabasterd/ChunkDownloader.java:114-117 | after a success, the next attempt keeps the URL |
| `ChunkWorker.RateLimitBlocksProxy` | src/main/java/com/tonikelope/megabasterd/ChunkDownloader.java:129-145 | a 509 received through smart proxy `p` makes the next attempt, in smart mode without a fixed proxy, append `p` to the block list and then take the proxy the pool offers for that list |
| `ChunkWorker.SuccessReadsSize` | src/main/java/com/tonikelope/megabasterd/ChunkDownloader.java:304 | a successful attempt has read exactly the chunk's size, which is not negative |
| `ChunkWorker.StepAccounting` | src/main/java/com/tonikelope/megabasterd/ChunkDownloader.java:253-367 | an attempt on a chunk either succeeds and adds the chunk size to the progress, rejecting nothing, or fails, appends its id to the rejected ids and leaves the progress unchanged |
| `ChunkWorker.RunAccounting` | src/main/java/com/tonikelope/megabasterd/ChunkDownloader.java:112-385 | over a run, the progress grows by exactly the sum of the committed chunk sizes; the rejected ids only grow at the end; every attempt either committed its chunk or rejected it |
| `ChunkWorker.NeedsUrl` | src/main/java/com/tonikelope/megabasterd/ChunkDownloader.java:114 | the URL-refresh test: no URL is held or the last attempt ended with 403; `UrlRefresh` states its effect |
| `ChunkWorker.TakesSmartPath` | src/main/java/com/tonikelope/megabasterd/ChunkDownloader.java:129 | the smart-proxy test: a 509 or a slow proxy, in smart mode, without a fixed proxy; `SmartProxyRule` states its effect |
| `ChunkWorker.Recovered` | src/main/java/com/tonikelope/megabasterd/ChunkDownloader.java:241-243 | a chunk file already exists with exactly the chunk size, so nothing is downloaded; `RecoveryWithoutDownload` states its effect |
| `ChunkWorker.WritesTmp` | src/main/java/com/tonikelope/megabasterd/ChunkDownloader.java:219-245 | the attempt downloads into a `.tmp` file: not exiting or stopped, a 200 answer whose body stream opened, and no recovered chunk file; `SuccessCommits` and `FailureRollsBack` state what happens to that file |
| `ChunkWorker.ChooseRoute` | src/main/java/com/tonikelope/megabasterd/ChunkDownloader.java:129-191 | the route, the proxy in use and the block list of an attempt; its properties are stated by `SmartProxyRule` |
| `ChunkWorker.Fetch` | src/main/java/com/tonikelope/megabasterd/ChunkDownloader.java:217-302 | the `try` block up to the success test: nothing when exiting or stopped, a timeout or another connect failure, a non-200 status, a body stream that cannot be opened after a 200, a recovered chunk, or the read loop into the `.tmp` file; `UnopenedBodyFails`, `DrainFacts`, `RecoveryWithoutDownload` and `ProgressOfAttempt` state what it gives |
| `ChunkWorker.Commit` | src/main/java/com/tonikelope/megabasterd/ChunkDownloader.java:308-315 | a written `.tmp` replaces any stale chunk file under the chunk's name; `SuccessCommits` states the resulting directory |
| `ChunkWorker.Discard` | src/main/java/com/tonikelope/megabasterd/ChunkDownloader.java:358-360 | the `.tmp` of a failed attempt is deleted; `FailureRollsBack` states the resulting directory |
| `ChunkWorker.BacksOff` | src/main/java/com/tonikelope/megabasterd/ChunkDownloader.java:369 | the backoff test; `BackoffRule` states when it leads to a backoff |
| `ChunkWorker.Settle` | src/main/java/com/tonikelope/megabasterd/ChunkDownloader.java:304-381 | the success test, then the commit or the rollback and the backoff; `SuccessIffFullChunk`, `SuccessCommits`, `FailureRollsBack` and `BackoffRule` state its effect |
| `ChunkWorker.Step` | src/main/java/com/tonikelope/megabasterd/ChunkDownloader.java:112-385 | one pass of the loop body, from the URL refresh to the rollback; the lemmas above state its properties |
| `ChunkWorker.RunSpec` | src/main/java/com/tonikelope/megabasterd/ChunkDownloader.java:112 | the loop, which runs while the worker is not exiting, the download is not stopped and chunks are handed out; `RunAccounting` states its totals |
| `ChunkWorker.Worker.constructor` | src/main/java/com/tonikelope/megabasterd/ChunkDownloader.java:32-41 | a new worker is not exiting and holds no URL, no status error, no error count, no slow flag, no proxy in use and no proxy manager, as `run()` starts its loop (lines 104-108), over the given progress, rejected ids and directory |
| `ChunkWorker.Worker.SetExit` | src/main/java/com/tonikelope/megabasterd/ChunkDownloader.java:43-45 | only the exit flag changes |
| `ChunkWorker.Worker.PickRoute` | src/main/java/com/tonikelope/megabasterd/ChunkDownloader.java:129-191 | the route, the proxy in use and the blocked proxies are those `ChooseRoute` gives |
| `ChunkWorker.Worker.ReadBody` | src/main/java/com/tonikelope/megabasterd/ChunkDownloader.java:241-289 | the loop's byte count, exception and timeout are `DrainFrom` from the start; the `.tmp` file's length is that byte count; the progress grew by it |
| `ChunkWorker.Worker.Transfer` | src/main/java/com/tonikelope/megabasterd/ChunkDownloader.java:217-302 | leaving the `try` block gives exactly `Fetch`, and the status error, directory and progress agree with it |
| `ChunkWorker.Worker.Finish` | src/main/java/com/tonikelope/megabasterd/ChunkDownloader.java:304-381 | the commit or rollback leaves the state `Settle` gives and returns its success and backoff |
| `ChunkWorker.Worker.CommitChunk` | src/main/java/com/tonikelope/megabasterd/ChunkDownloader.java:308-336 | after a success the directory is `Commit` of the old one, both error variables are 0, and the slow flag is set exactly when a smart proxy is in use and judged slow |
| `ChunkWorker.Worker.RejectChunk` | src/main/java/com/tonikelope/megabasterd/ChunkDownloader.java:350-381 | after a failure the `.tmp` is discarded, the id is appended to the rejected ids, the bytes read are taken back from the progress, the slow flag is cleared, and the counter is incremented and returned as the backoff exactly when `BacksOff` holds |
| `ChunkWorker.Worker.Serve` | src/main/java/com/tonikelope/megabasterd/ChunkDownloader.java:129-381 | an attempt on a granted chunk leaves the state `Step` gives, with its route, success and backoff |
| `ChunkWorker.Worker.Attempt` | src/main/java/com/tonikelope/megabasterd/ChunkDownloader.java:112-385 | one pass of the loop body leaves the state `Step` gives and returns whether the loop ended, the route, the success and the backoff |
| `ChunkWorker.Worker.Run` | src/main/java/com/tonikelope/megabasterd/ChunkDownloader.java:112-385 | the loop leaves the state `RunSpec` gives and returns its committed chunk sizes and number of attempts |
| `DownloadQueues.RemoveFirst` | src/megabasterd/DownloadManager.java:39-43 | removing a download whose identity is in a collection shortens it by one; removing one that is not leaves it unchanged |
| `DownloadQueues.RemoveFirstCount` | src/megabasterd/DownloadManager.java:39-43 | removing `d` takes out one occurrence of `d`'s identity if there is one, and leaves the count of every other identity unchanged |
| `DownloadQueues.RemoveEach` | src/megabasterd/DownloadManager.java:29-43 | a collection after `remove` has been called on it for each listed download in turn; `RemoveEachCount`, `RemovedAreGone`, `OthersStay` and `RemoveEachKeepsOrder` state what is left |
| `DownloadQueues.ProvisionedSize` | src/megabasterd/DownloadManager.java:45-47 | the sum of the sizes of the provisioned listed downloads; `ProvisionedUrlsCount` and `UnprovisionedSizeZero` relate it to the provisioned downloads |
| `DownloadQueues.ProvisionedUrls` | src/megabasterd/DownloadManager.java:45-49 | the URLs collected for `deleteDownloads`; `ProvisionedUrlsAre` states they are those of the provisioned listed downloads, in order |
| `DownloadQueues.RemoveEachCount` | src/megabasterd/DownloadManager.java:29-43 | after the loop, each identity occurs as often as before, minus the times it was listed, and never fewer than zero times |
| `DownloadQueues.RemovedAreGone` | src/megabasterd/DownloadManager.java:39-43 | no download with a listed download's identity is left in a collection that held each identity at most once |
| `DownloadQueues.OthersStay` | src/megabasterd/DownloadManager.java:39-43 | an identity that is not listed keeps every occurrence, and stays in exactly the collections it was in |
| `DownloadQueues.RemoveFirstKeepsOthers` | src/megabasterd/DownloadManager.java:39-43 | removing a listed download keeps the unlisted ones in their order |
| `DownloadQueues.RemoveEachKeepsOrder` | src/megabasterd/DownloadManager.java:29-43 | the downloads that were not listed keep their relative order |
| `DownloadQueues.Provisioned` | src/megabasterd/DownloadManager.java:45 | the selected downloads are listed ones that are provisioned |
| `DownloadQueues.ProvisionedUrlsCount` | src/megabasterd/DownloadManager.java:45-49 | one URL is deleted per provisioned listed download, and the total drops by the sum of their sizes |
| `DownloadQueues.ProvisionedUrlsAre` | src/megabasterd/DownloadManager.java:27-54 | the k-th deleted URL is the URL of the k-th provisioned listed download, in input order |
| `DownloadQueues.UnprovisionedSizeZero` | src/megabasterd/DownloadManager.java:45-50 | unprovisioned downloads change neither the total nor the deletion list |
| `DownloadQueues.DownloadManager.Remove` | src/megabasterd/DownloadManager.java:24-60 | each collection loses the listed downloads one `remove` at a time, in order; the total drops by the sizes of the provisioned ones; the URLs handed to `deleteDownloads` are theirs, in order |
| `DownloadQueues.DownloadManager.Provision` | src/megabasterd/DownloadManager.java:103-145 | a provisioned download is appended to the wait-start queue and its size added to the total; otherwise it is appended to the finished queue and the total is unchanged; the running list is untouched |
| `DownloadQueues.ProvisionThenRemove` | src/megabasterd/DownloadManager.java:45-49 | a successful provision followed by the removal of the same download restores the total and the queues, and deletes exactly that download's URL |

## Left out

- HTTP connection setup, proxy authentication, timeouts and the User-Agent
  header are not modelled. The response is an input: a status code, a
  connect timeout or another I/O failure, or, after a 200, a timeout or
  another I/O failure when opening the body stream.
- `ThrottledInputStream` and the buffer copy are not modelled. The body is
  an input: the sizes of the reads in order, and how the stream ends (-1, a
  timeout or another failure). Writing to the `.tmp` file is assumed to
  succeed.
- Real file I/O is not modelled. The directory is a map from file names to
  lengths, and creating, renaming and deleting a file are assumed to
  succeed. File names are a datatype, `<name>.chunk<id>` or its `.tmp`,
  not strings.
- `secureNotify`, `secureWait` and pausing are not modelled. They are
  thread handshakes: a pause that ends normally suspends the worker but
  does not change the bytes read or the progress. An interrupted
  `secureWait` sets the exit flag (line 86), which ends the read loop
  early and suppresses the backoff. That is not modelled, because the exit
  flag is read once per attempt.
- Other side effects on the worker and the download are not modelled:
  `enableProxyTurboMode` on the smart path (line 159), the `_error_wait`
  flag raised around the backoff sleep (lines 371 and 377), and the
  `stopThisSlot` call and the chunk manager's `secureNotify` after the
  loop (lines 397-399).
- `Thread.sleep` and `getWaitTimeExpBackOff` belong to code that is not
  part of this model. A backoff is recorded as the argument it would be
  given.
- The slow-proxy speed benchmark uses wall-clock time and floating point.
  Its verdict is an input boolean.
- `ChunkManager` (chunk offsets, sizes, id checks and URLs),
  `SmartMegaProxyManager`, `nextChunkId`, `rejectChunkId` and
  `getDownloadUrlForWorker` are not part of this model. Their answers are
  inputs: the fresh URL, the granted chunk or the end of chunks, and the
  fastest proxy. The pool's answer is a function of the proxies blocked
  when it is asked; the rest of the pool's state is not modelled. The
  blocked proxies are recorded as a list.
- The exit, stopped and chunk-manager exit flags and the proxy settings are
  read once per attempt. Changes made by other threads during an attempt
  are not modelled.
- Any exception other than `ChunkInvalidException` that is thrown outside
  the inner `try`, or escapes it, ends the worker and stops the download
  (lines 389-391). This includes an `IOException` from `new URL` or
  `openConnection` (lines 153-185), which leaves the granted chunk
  unrejected. That is not modelled: opening the connection is assumed to
  succeed, and `ConnectFailure` stands only for the `IOException` thrown
  by `getResponseCode`.
- Swing and view calls are not modelled: `swingInvoke`, `setSmartProxy`,
  `set509Error`, `updateSlotsStatus` and the panel reordering.
- The SQL `deleteDownloads` is not modelled. `Remove` returns the URLs it
  would be given.
- The retry of a failed provisioning on `THREAD_POOL`, and the exceptions
  of `provisionIt`, are not modelled. `Provision` starts once
  `provisionIt` has returned, with its verdict in `provisionOk`.
- Sizes are unbounded integers. The overflow of Java's `long` is not
  modelled.
- `Worker.Run` runs over a finite sequence of rounds of inputs. It stops
  when they run out.
- ChunkWorker.SuccessIffFullChunk: stated for chunks of positive size only.
  For a chunk of size 0, an attempt that cannot connect, times out or finds
  the worker exiting ends with `chunk_reads == chunk_size == 0`, yet it
  fails, because the success test is never reached.
- DownloadQueues.DownloadManager.Provision: appends to the wait-start
  queue and does not model the reordering by `sortTransferenceStartQueue`.
  That method is not part of this model, and it runs only when no
  preprocessing or provisioning is under way.
- DownloadQueues.RemovedAreGone: stated for collections that hold each
  download at most once. A download listed once but queued twice keeps its
  second occurrence, as `RemoveEachCount` states.
