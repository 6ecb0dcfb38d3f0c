/** One chunk worker of a download, reduced to the bookkeeping of its
    `run()` loop: which URL and which route each attempt uses, what the
    attempt does to the shared progress counter, to the rejected chunk ids
    and to the chunk files on disk, and when it backs off. The network,
    the streams, the clock and the proxy pool are answers handed in as an
    `Outcome`. Line numbers in the comments below are those of
    `ChunkDownloader.java`. */
module ChunkWorker {

  datatype Option<T> = None | Some(value: T)

  /** Files of the download directory: `<name>.chunk<id>` and its staging
      twin `<name>.chunk<id>.tmp`. The map from names to lengths stands for
      the directory. */
  datatype FileName = ChunkFile(id: int) | TmpFile(id: int)

  /** What the connection gave: a status from `getResponseCode` (with the
      body stream opened when it is 200), the IOException `getResponseCode`
      threw (a `SocketTimeoutException` or another one), or, after a 200,
      the IOException `getInputStream` threw when the body stream was
      opened (line 235). */
  datatype Response = Status(code: int) | ConnectTimeout | ConnectFailure | BodyTimeout | BodyFailure

  /** What the body stream answers to the read after the listed ones:
      -1, or an exception. */
  datatype StreamEnd = EndOfStream | ReadTimeout | ReadFailure

  /** The chunk `nextChunkId` hands out, with the size `calculateChunkSize`
      gives it, or the `ChunkInvalidException` that ends the worker. */
  datatype Grant = Chunk(id: int, size: int) | NoChunk

  /** Flags and settings one attempt observes: the download's stopped flag,
      the chunk manager's exit flag, smart-proxy mode and the fixed proxy
      setting. They are read as constant for the length of one attempt. */
  datatype Env = Env(stopped: bool, managerExit: bool, smartMode: bool, fixedProxy: bool)

  /** Everything the outside answers during one attempt: the URL
      `getDownloadUrlForWorker` would return, the chunk grant, the proxy
      `getFastestProxy` would return given the proxies blocked by then, the
      response, the sizes the stream returns read by read and how it ends,
      and the verdict of the slow-proxy benchmark. */
  datatype Outcome = Outcome(
    freshUrl: string,
    grant: Grant,
    fastest: seq<string> -> Option<string>,
    response: Response,
    readSizes: seq<nat>,
    end: StreamEnd,
    slow: bool)

  /** How the connection of an attempt was opened. */
  datatype Route = Direct | FixedProxy | SmartProxy(address: string)

  /** The variables `run()` carries from one attempt to the next
      (`worker_url`, `http_error`, `conta_error`, `slow_proxy`,
      `current_smart_proxy`), the proxies handed to `blockProxy` (`None`
      while no proxy manager exists), and the shared state an attempt
      changes: the partial-progress counter, the rejected chunk ids and the
      directory. */
  datatype State = State(
    url: Option<string>,
    httpError: int,
    contaError: int,
    slowProxy: bool,
    smartProxy: Option<string>,
    blocked: Option<seq<string>>,
    progress: int,
    rejected: seq<int>,
    files: map<FileName, nat>)

  function Sum(s: seq<int>): int
  {
    if s == [] then 0 else s[0] + Sum(s[1..])
  }

  lemma SumSlice(s: seq<int>, i: nat, n: nat)
    requires i < n <= |s|
    ensures Sum(s[i..n]) == s[i] + Sum(s[i + 1..n])
  {
    assert s[i..n][1..] == s[i + 1..n];
  }

  /** Result of the read loop: bytes read, reads consumed, and whether the
      read that ended it threw (and whether that was a timeout). */
  datatype Drained = Drained(count: nat, total: int, raised: bool, timedOut: bool)

  /** The read loop of lines 253-286 from read number `i` on, with `got`
      bytes read so far: while `open` (the worker, the download and the
      chunk manager are all still running) and fewer than `size` bytes have
      arrived, it reads, until the stream ends. The contract says which
      reads it consumes: all of them up to the first point where `size` is
      reached, and no more. */
  function DrainFrom(open: bool, sizes: seq<nat>, end: StreamEnd, size: int, i: nat, got: int): (r: Drained)
    requires i <= |sizes|
    ensures i <= r.count <= |sizes| && r.total >= got
    decreases |sizes| - i
  {
    if !open || got >= size then Drained(i, got, false, false)
    else if i == |sizes| then Drained(i, got, end != EndOfStream, end == ReadTimeout)
    else DrainFrom(open, sizes, end, size, i + 1, got + sizes[i])
  }

  /** What draining the stream from read `i` on, with `got` bytes so far,
      amounts to: the bytes of the reads it consumed are added, it stops at
      the first read that reaches `size` or at the end of the stream, it
      stops at once when `open` is false, and it raises only when the stream
      ended short of `size` by a timeout or a failure. */
  lemma {:induction false} DrainFacts(open: bool, sizes: seq<nat>, end: StreamEnd, size: int, i: nat, got: int)
    requires i <= |sizes|
    ensures var r := DrainFrom(open, sizes, end, size, i, got);
            && r.total >= got
            && r.total == got + Sum(sizes[i..r.count])
            && (open && r.count < |sizes| ==> r.total >= size)
            && (!open ==> r == Drained(i, got, false, false))
            && (r.raised <==> open && r.count == |sizes| && r.total < size && end != EndOfStream)
            && (r.timedOut <==> r.raised && end == ReadTimeout)
            && (forall k :: i <= k < r.count ==> got + Sum(sizes[i..k]) < size)
    decreases |sizes| - i
  {
    if open && got < size && i < |sizes| {
      DrainFacts(open, sizes, end, size, i + 1, got + sizes[i]);
      var r := DrainFrom(open, sizes, end, size, i + 1, got + sizes[i]);
      SumSlice(sizes, i, r.count);
      forall k | i < k < r.count {
        SumSlice(sizes, i, k);
      }
    }
  }

  /** The worker fetches a URL when it holds none yet or the last attempt
      ended with 403 (Forbidden, section 15.5.4 of RFC 9110). */
  predicate NeedsUrl(url: Option<string>, httpError: int)
  {
    url.None? || httpError == 403
  }

  /** The smart-proxy path: the last attempt saw 509 or a slow proxy, smart
      mode is on and no fixed proxy is configured. */
  predicate TakesSmartPath(httpError: int, slowProxy: bool, env: Env)
  {
    (httpError == 509 || slowProxy) && env.smartMode && !env.fixedProxy
  }

  datatype Choice = Choice(route: Route, smartProxy: Option<string>, blocked: Option<seq<string>>)

  /** The proxies blocked so far; none while no proxy manager exists. */
  function BlockedSoFar(blocked: Option<seq<string>>): seq<string>
  {
    if blocked.None? then [] else blocked.value
  }

  /** Lines 129-191: pick the connection path. On the smart path the proxy
      manager is created if needed, the proxy in use is blocked, and then
      the pool is asked for the fastest proxy, which (if any) becomes the
      one in use; otherwise the proxy in use is forgotten. */
  function ChooseRoute(s: State, env: Env, fastest: seq<string> -> Option<string>): Choice
  {
    if TakesSmartPath(s.httpError, s.slowProxy, env) then
      var known := BlockedSoFar(s.blocked);
      var blocked := if s.smartProxy.Some? then known + [s.smartProxy.value] else known;
      var proxy := fastest(blocked);
      Choice(if proxy.Some? then SmartProxy(proxy.value) else Direct, proxy, Some(blocked))
    else
      Choice(if env.fixedProxy then FixedProxy else Direct, None, s.blocked)
  }

  /** A chunk file of exactly the chunk's size is already on disk. */
  predicate Recovered(files: map<FileName, nat>, id: int, size: int)
  {
    ChunkFile(id) in files && files[ChunkFile(id)] == size
  }

  /** The attempt downloads into a `.tmp` file: it got a 200 and there is
      no correctly sized chunk file yet. */
  predicate WritesTmp(exit: bool, env: Env, id: int, size: int, o: Outcome, files: map<FileName, nat>)
  {
    !exit && !env.stopped && o.response == Status(200) && !Recovered(files, id, size)
  }

  /** The state of the `try` block once it is left: the status error, the
      bytes read, whether a timeout was thrown, whether the success test was
      reached (no exception, not exiting), whether a `.tmp` was created,
      and the directory and progress counter. */
  datatype Fetched = Fetched(
    httpError: int,
    chunkReads: int,
    timedOut: bool,
    checked: bool,
    tmpCreated: bool,
    files: map<FileName, nat>,
    progress: int)

  /** Lines 219-302. */
  function Fetch(exit: bool, env: Env, id: int, size: int, o: Outcome, files: map<FileName, nat>, progress: int): Fetched
  {
    if exit || env.stopped then Fetched(0, 0, false, false, false, files, progress)
    else match o.response
      case ConnectTimeout => Fetched(0, 0, true, false, false, files, progress)
      case ConnectFailure => Fetched(0, 0, false, false, false, files, progress)
      case BodyTimeout => Fetched(0, 0, true, false, false, files, progress)
      case BodyFailure => Fetched(0, 0, false, false, false, files, progress)
      case Status(code) =>
        if code != 200 then Fetched(code, 0, false, true, false, files, progress)
        else if Recovered(files, id, size) then Fetched(0, size, false, true, false, files, progress + size)
        else
          var d := DrainFrom(!env.managerExit, o.readSizes, o.end, size, 0, 0);
          Fetched(0, d.total, d.timedOut, !d.raised, true, files[TmpFile(id) := d.total], progress + d.total)
  }

  /** Lines 308-315: a stale chunk file is deleted and the `.tmp` renamed onto it. */
  function Commit(files: map<FileName, nat>, id: int, size: int, tmpCreated: bool): map<FileName, nat>
  {
    if tmpCreated && !Recovered(files, id, size) && TmpFile(id) in files then
      var cleared := if ChunkFile(id) in files then files - {ChunkFile(id)} else files;
      (cleared - {TmpFile(id)})[ChunkFile(id) := cleared[TmpFile(id)]]
    else files
  }

  /** Lines 358-360: the `.tmp` of a failed attempt is deleted. */
  function Discard(files: map<FileName, nat>, id: int, tmpCreated: bool): map<FileName, nat>
  {
    if tmpCreated && TmpFile(id) in files then files - {TmpFile(id)} else files
  }

  /** What one attempt produced: the new state; whether the loop ended on
      a `ChunkInvalidException`; the route used; success; the bytes read;
      whether a timeout was thrown; and the backoff, as the argument given
      to `getWaitTimeExpBackOff`. */
  datatype StepResult = StepResult(
    next: State,
    ended: bool,
    route: Option<Route>,
    success: bool,
    chunkReads: int,
    timedOut: bool,
    backoff: Option<int>)

  /** The backoff test of line 369. */
  predicate BacksOff(exit: bool, env: Env, timedOut: bool, httpError: int)
  {
    !exit && !env.stopped && !timedOut && (httpError != 509 || !env.smartMode) && httpError != 403
  }

  /** One pass of the body of the `while` loop of `run()` (lines 112-385). */
  function Step(s: State, exit: bool, env: Env, o: Outcome): StepResult
  {
    var url := if NeedsUrl(s.url, s.httpError) then Some(o.freshUrl) else s.url;
    match o.grant
    case NoChunk => StepResult(s.(url := url), true, None, false, 0, false, None)
    case Chunk(id, size) =>
      Settle(s, url, ChooseRoute(s, env, o.fastest), Fetch(exit, env, id, size, o, s.files, s.progress),
             exit, env, id, size, o.slow)
  }

  /** Lines 304-381: the success test, then the commit or the rollback and
      the backoff decision. */
  function Settle(s: State, url: Option<string>, c: Choice, f: Fetched,
                  exit: bool, env: Env, id: int, size: int, slow: bool): StepResult
  {
    if f.checked && f.chunkReads == size then
      StepResult(
        State(url, 0, 0, c.smartProxy.Some? && slow, c.smartProxy, c.blocked,
              f.progress, s.rejected, Commit(f.files, id, size, f.tmpCreated)),
        false, Some(c.route), true, f.chunkReads, f.timedOut, None)
    else
      var backs := BacksOff(exit, env, f.timedOut, f.httpError);
      var conta := if backs then s.contaError + 1 else s.contaError;
      StepResult(
        State(url, f.httpError, conta, false, c.smartProxy, c.blocked,
              if f.chunkReads > 0 then f.progress - f.chunkReads else f.progress,
              s.rejected + [id], Discard(f.files, id, f.tmpCreated)),
        false, Some(c.route), false, f.chunkReads, f.timedOut, if backs then Some(conta) else None)
  }

  /** The inputs of one pass of the loop. */
  datatype Round = Round(env: Env, o: Outcome)

  /** A run over the given rounds: the final state, the sizes of the chunks
      committed, in order, and the number of attempts made on a chunk. */
  datatype RunResult = RunResult(final: State, committed: seq<int>, attempts: nat)

  /** The `while` loop of `run()`: it goes on while the worker is not told to
      exit, the download is not stopped and chunks are handed out. */
  function RunSpec(s: State, exit: bool, rounds: seq<Round>): RunResult
    decreases |rounds|
  {
    if exit || rounds == [] || rounds[0].env.stopped then RunResult(s, [], 0)
    else
      var r := Step(s, exit, rounds[0].env, rounds[0].o);
      if r.ended then RunResult(r.next, [], 0)
      else
        var rest := RunSpec(r.next, exit, rounds[1..]);
        RunResult(rest.final, (if r.success then [rounds[0].o.grant.size] else []) + rest.committed, rest.attempts + 1)
  }

  // ---------------------------------------------------------------------
  // Properties of one attempt

  /** The read loop adds to the progress counter exactly the bytes it
      reads, and a failed attempt takes exactly those back: a failed
      attempt leaves the counter as it found it, a successful one adds the
      chunk's size. */
  lemma {:induction false} ProgressOfAttempt(s: State, exit: bool, env: Env, o: Outcome)
    requires o.grant.Chunk?
    ensures var r := Step(s, exit, env, o);
            r.next.progress == s.progress + (if r.success then o.grant.size else 0)
  {
    var id, size := o.grant.id, o.grant.size;
    var f := Fetch(exit, env, id, size, o, s.files, s.progress);
    assert f.progress == s.progress + f.chunkReads;
    assert f.chunkReads >= 0;
  }

  /** Success is exactly `chunk_reads == chunk_size` for a chunk of positive
      size. (For a chunk of size 0, an attempt that cannot connect, times
      out or finds the worker exiting ends with `chunk_reads ==
      chunk_size == 0` too, yet fails, since the test is never reached.) */
  lemma {:induction false} SuccessIffFullChunk(s: State, exit: bool, env: Env, o: Outcome)
    requires o.grant.Chunk? && o.grant.size > 0
    ensures var r := Step(s, exit, env, o);
            r.success <==> r.chunkReads == o.grant.size
  {
    var id, size := o.grant.id, o.grant.size;
    var f := Fetch(exit, env, id, size, o, s.files, s.progress);
    DrainFacts(!env.managerExit, o.readSizes, o.end, size, 0, 0);
    if f.chunkReads == size {
      assert f.checked;
    }
  }

  /** A success resets the error counter and the status error, rejects
      nothing, and leaves the chunk on disk as `<name>.chunk<id>` with the
      chunk's size; the `.tmp` written by the attempt is gone and no other
      file changes. */
  lemma {:induction false} SuccessCommits(s: State, exit: bool, env: Env, o: Outcome)
    requires o.grant.Chunk?
    requires Step(s, exit, env, o).success
    requires o.response == Status(200)
    ensures var r := Step(s, exit, env, o);
            var id := o.grant.id;
            && r.next.contaError == 0 && r.next.httpError == 0
            && r.next.rejected == s.rejected
            && ChunkFile(id) in r.next.files && r.next.files[ChunkFile(id)] == o.grant.size
            && (WritesTmp(exit, env, id, o.grant.size, o, s.files) ==> TmpFile(id) !in r.next.files)
            && r.next.files - {ChunkFile(id), TmpFile(id)} == s.files - {ChunkFile(id), TmpFile(id)}
  {
    var id, size := o.grant.id, o.grant.size;
    var f := Fetch(exit, env, id, size, o, s.files, s.progress);
    var g := Commit(f.files, id, size, f.tmpCreated);
    if f.tmpCreated {
      assert f.files == s.files[TmpFile(id) := size];
      assert g - {ChunkFile(id), TmpFile(id)} == s.files - {ChunkFile(id), TmpFile(id)};
    }
  }

  /** Recovery: with a correctly sized chunk file on disk and a 200 answer,
      nothing is downloaded, no `.tmp` is created, the attempt succeeds and
      the progress grows by exactly the chunk's size. */
  lemma {:induction false} RecoveryWithoutDownload(s: State, exit: bool, env: Env, o: Outcome)
    requires o.grant.Chunk?
    requires !exit && !env.stopped && o.response == Status(200)
    requires Recovered(s.files, o.grant.id, o.grant.size)
    ensures var r := Step(s, exit, env, o);
            && r.success && r.chunkReads == o.grant.size
            && r.next.files == s.files
            && r.next.progress == s.progress + o.grant.size
  {
  }

  /** A body stream that cannot be opened after a 200 answer fails the
      attempt before the chunk file is looked at: even a complete chunk
      file is not recovered, no `.tmp` is created or deleted (a stale one
      from an earlier run stays), the chunk is rejected and the progress is
      unchanged; a timeout here never backs off. */
  lemma {:induction false} UnopenedBodyFails(s: State, exit: bool, env: Env, o: Outcome)
    requires o.grant.Chunk?
    requires o.response == BodyTimeout || o.response == BodyFailure
    ensures var r := Step(s, exit, env, o);
            && !r.success && r.chunkReads == 0
            && r.next.files == s.files
            && r.next.progress == s.progress
            && r.next.rejected == s.rejected + [o.grant.id]
            && r.next.httpError == 0
            && (o.response == BodyTimeout && !exit && !env.stopped ==> r.timedOut && r.backoff.None?)
  {
  }

  /** A failed attempt rejects its chunk, leaves the progress counter as it
      found it, deletes the `.tmp` it wrote and touches no other file. */
  lemma {:induction false} FailureRollsBack(s: State, exit: bool, env: Env, o: Outcome)
    requires o.grant.Chunk?
    requires !Step(s, exit, env, o).success
    ensures var r := Step(s, exit, env, o);
            var id := o.grant.id;
            && r.next.rejected == s.rejected + [id]
            && r.next.progress == s.progress
            && r.next.files == (if WritesTmp(exit, env, id, o.grant.size, o, s.files) then s.files - {TmpFile(id)} else s.files)
  {
    ProgressOfAttempt(s, exit, env, o);
  }

  /** Every attempt starts afresh: a status error or the slow flag that
      survives the attempt was produced by it. */
  lemma {:induction false} FlagsComeFromThisAttempt(s: State, exit: bool, env: Env, o: Outcome)
    requires o.grant.Chunk?
    ensures var r := Step(s, exit, env, o);
            && (r.next.httpError != 0 ==> !r.success && o.response == Status(r.next.httpError) && r.next.httpError != 200)
            && (r.next.slowProxy ==> r.success && o.slow && r.route.Some? && r.route.value.SmartProxy?)
            && (r.timedOut ==> !r.success && !exit && !env.stopped)
  {
    var f := Fetch(exit, env, o.grant.id, o.grant.size, o, s.files, s.progress);
    if f.timedOut && o.response == Status(200) && !env.managerExit {
      DrainFacts(true, o.readSizes, o.end, o.grant.size, 0, 0);
      assert !f.checked;
    }
  }

  /** URL refresh: the URL is fetched again exactly when none is held or
      the previous attempt ended with 403. */
  lemma {:induction false} UrlRefresh(s: State, exit: bool, env: Env, o: Outcome)
    ensures var r := Step(s, exit, env, o);
            && (NeedsUrl(s.url, s.httpError) ==> r.next.url == Some(o.freshUrl))
            && (!NeedsUrl(s.url, s.httpError) ==> r.next.url == s.url)
  {
  }

  /** The smart-proxy path is taken only after a 509 or a slow proxy, in
      smart mode without a fixed proxy. On it, the proxy in use (and no
      other) is added to the blocked ones, the pool is asked only after
      that, and the connection goes through the proxy it offers, or direct
      when it offers none. Off it, the proxy in use is cleared, nothing is
      blocked, and the route is the fixed proxy or direct. */
  lemma {:induction false} SmartProxyRule(s: State, exit: bool, env: Env, o: Outcome)
    requires o.grant.Chunk?
    ensures var r := Step(s, exit, env, o);
            var known := BlockedSoFar(s.blocked);
            var blocked := if s.smartProxy.Some? then known + [s.smartProxy.value] else known;
            && (r.route.Some? && r.route.value.SmartProxy? ==> TakesSmartPath(s.httpError, s.slowProxy, env))
            && (TakesSmartPath(s.httpError, s.slowProxy, env) ==>
                  && r.next.blocked == Some(blocked)
                  && r.next.smartProxy == o.fastest(blocked)
                  && r.route == Some(if o.fastest(blocked).Some? then SmartProxy(o.fastest(blocked).value) else Direct))
            && (!TakesSmartPath(s.httpError, s.slowProxy, env) ==>
                  && r.next.smartProxy == None && r.next.blocked == s.blocked
                  && r.route == Some(if env.fixedProxy then FixedProxy else Direct))
  {
  }

  /** Backoff happens only after a failure, when the worker is not exiting,
      the download is not stopped, the error was no timeout, no 509 in smart
      mode and no 403; only then is the error counter incremented, and the
      backoff uses its new value. */
  lemma {:induction false} BackoffRule(s: State, exit: bool, env: Env, o: Outcome)
    requires o.grant.Chunk?
    ensures var r := Step(s, exit, env, o);
            && (r.backoff.Some? <==> !r.success && BacksOff(exit, env, r.timedOut, r.next.httpError))
            && (r.backoff.Some? ==> r.backoff.value == r.next.contaError == s.contaError + 1)
            && (r.backoff.None? ==> r.next.contaError == if r.success then 0 else s.contaError)
  {
  }

  // ---------------------------------------------------------------------
  // Properties across attempts

  /** After an attempt answered 403, the next attempt fetches a fresh URL. */
  lemma {:induction false} ForbiddenRefreshesNext(s: State, exit: bool, env: Env, o: Outcome, env2: Env, o2: Outcome)
    requires o.grant.Chunk? && o.grant.size != 0
    requires !exit && !env.stopped && o.response == Status(403)
    ensures var s1 := Step(s, exit, env, o).next;
            Step(s1, exit, env2, o2).next.url == Some(o2.freshUrl)
  {
  }

  /** After a successful attempt the URL is kept. */
  lemma {:induction false} SuccessKeepsUrl(s: State, exit: bool, env: Env, o: Outcome, env2: Env, o2: Outcome)
    requires o.grant.Chunk? && Step(s, exit, env, o).success
    ensures var s1 := Step(s, exit, env, o).next;
            s1.url.Some? && Step(s1, exit, env2, o2).next.url == s1.url
  {
  }

  /** A 509 answered through a smart proxy makes the next attempt, in smart
      mode without a fixed proxy, block that proxy and only then ask the
      pool for another: the pool is given the block list ending with it. */
  lemma {:induction false} RateLimitBlocksProxy(s: State, exit: bool, env: Env, o: Outcome, env2: Env, o2: Outcome, p: string)
    requires o.grant.Chunk? && o.grant.size != 0
    requires !exit && !env.stopped && o.response == Status(509)
    requires Step(s, exit, env, o).route == Some(SmartProxy(p))
    requires o2.grant.Chunk? && env2.smartMode && !env2.fixedProxy
    ensures var s1 := Step(s, exit, env, o).next;
            var r2 := Step(s1, exit, env2, o2);
            && r2.next.blocked.Some? && r2.next.blocked.value[|r2.next.blocked.value| - 1] == p
            && r2.next.smartProxy == o2.fastest(r2.next.blocked.value)
  {
    SmartProxyRule(s, exit, env, o);
  }

  /** One attempt on a chunk either commits it, adding its size to the
      progress counter, or appends its id to the rejected ids, leaving the
      counter as it was. */
  lemma StepAccounting(s: State, exit: bool, env: Env, o: Outcome)
    requires o.grant.Chunk?
    ensures var r := Step(s, exit, env, o);
            && r.next.progress == s.progress + (if r.success then o.grant.size else 0)
            && r.next.rejected == s.rejected + (if r.success then [] else [o.grant.id])
  {
    ProgressOfAttempt(s, exit, env, o);
  }

  /** Over a whole run, the progress counter grows by exactly the sizes of
      the committed chunks, and every attempt either committed its chunk or
      appended its id to the rejected ids. */
  lemma {:induction false} RunAccounting(s: State, exit: bool, rounds: seq<Round>)
    ensures var r := RunSpec(s, exit, rounds);
            && r.final.progress == s.progress + Sum(r.committed)
            && |s.rejected| <= |r.final.rejected|
            && r.final.rejected[..|s.rejected|] == s.rejected
            && |r.final.rejected| - |s.rejected| + |r.committed| == r.attempts
    decreases |rounds|
  {
    if !exit && rounds != [] && !rounds[0].env.stopped {
      var st := Step(s, exit, rounds[0].env, rounds[0].o);
      if !st.ended {
        StepAccounting(s, exit, rounds[0].env, rounds[0].o);
        RunAccounting(st.next, exit, rounds[1..]);
        var rest := RunSpec(st.next, exit, rounds[1..]);
        var done := if st.success then [rounds[0].o.grant.size] else [];
        assert RunSpec(s, exit, rounds) == RunResult(rest.final, done + rest.committed, rest.attempts + 1);
        assert rest.final.rejected[..|s.rejected|] == st.next.rejected[..|s.rejected|];
        assert Sum(done + rest.committed) == Sum(done) + Sum(rest.committed) by {
          if st.success {
            assert (done + rest.committed)[1..] == rest.committed;
          } else {
            assert done + rest.committed == rest.committed;
          }
        }
      }
    }
  }

  /** One more pass of the loop, as `Run` takes it: the attempt from
      `before` to `after` ended the loop or added its chunk's size to the
      committed ones. */
  lemma RunStep(s0: State, exit: bool, rounds: seq<Round>, k: nat, before: State, after: State,
                ended: bool, success: bool, committed: seq<int>, attempts: nat)
    requires k < |rounds| && !exit && !rounds[k].env.stopped
    requires var st := Step(before, exit, rounds[k].env, rounds[k].o);
             after == st.next && ended == st.ended && success == st.success
    requires var rest := RunSpec(before, exit, rounds[k..]);
             RunSpec(s0, exit, rounds) == RunResult(rest.final, committed + rest.committed, attempts + rest.attempts)
    ensures ended ==> RunSpec(s0, exit, rounds) == RunResult(after, committed, attempts)
    ensures var rest := RunSpec(after, exit, rounds[k + 1..]);
            var done := committed + (if success then [rounds[k].o.grant.size] else []);
            !ended ==> RunSpec(s0, exit, rounds) == RunResult(rest.final, done + rest.committed, attempts + 1 + rest.attempts)
  {
    var here := rounds[k..];
    assert here[0] == rounds[k] && here[1..] == rounds[k + 1..];
    var rest := RunSpec(after, exit, rounds[k + 1..]);
    var done := if success then [rounds[k].o.grant.size] else [];
    if ended {
      assert RunSpec(before, exit, here) == RunResult(after, [], 0);
    } else {
      assert RunSpec(before, exit, here) == RunResult(rest.final, done + rest.committed, rest.attempts + 1);
      assert committed + (done + rest.committed) == (committed + done) + rest.committed;
    }
  }

  /** A successful attempt has read exactly its chunk's size, a size that
      cannot be negative. */
  lemma {:induction false} SuccessReadsSize(s: State, exit: bool, env: Env, o: Outcome)
    requires o.grant.Chunk?
    requires Step(s, exit, env, o).success
    ensures Step(s, exit, env, o).chunkReads == o.grant.size >= 0
  {
    var f := Fetch(exit, env, o.grant.id, o.grant.size, o, s.files, s.progress);
    assert f.chunkReads >= 0;
  }

  // ---------------------------------------------------------------------
  // The worker

  /** A `ChunkDownloader`: its exit flag, the loop variables of `run()`
      kept as fields, the proxy manager's block list, and the shared state
      it updates. */
  class Worker {
    var exit: bool
    var url: Option<string>
    var httpError: int
    var contaError: int
    var slowProxy: bool
    var smartProxy: Option<string>
    var blocked: Option<seq<string>>
    var progress: int
    var rejected: seq<int>
    var files: map<FileName, nat>

    function Snapshot(): State
      reads this
    {
      State(url, httpError, contaError, slowProxy, smartProxy, blocked, progress, rejected, files)
    }

    /** A new worker (lines 32-41) as `run()` starts its loop (lines
        104-108): not exiting, no URL, no status error, no errors counted,
        no slow proxy, no proxy in use and no proxy manager, over the
        download's shared progress counter, rejected ids and directory. */
    constructor(progress: int, rejected: seq<int>, files: map<FileName, nat>)
      ensures !exit
      ensures Snapshot() == State(None, 0, 0, false, None, None, progress, rejected, files)
    {
      exit := false;
      url, httpError, contaError, slowProxy := None, 0, 0, false;
      smartProxy, blocked := None, None;
      this.progress, this.rejected, this.files := progress, rejected, files;
    }

    /** `setExit` (lines 43-45): only the exit flag changes. */
    method SetExit(value: bool)
      modifies this`exit
      ensures exit == value && Snapshot() == old(Snapshot())
    {
      exit := value;
    }

    /** Lines 129-191: open the connection directly, through the fixed
        proxy, or through a smart proxy. */
    method PickRoute(env: Env, fastest: seq<string> -> Option<string>) returns (route: Route)
      modifies this`blocked, this`smartProxy
      ensures var c := ChooseRoute(old(Snapshot()), env, fastest);
              route == c.route && smartProxy == c.smartProxy && blocked == c.blocked
    {
      if (httpError == 509 || slowProxy) && env.smartMode && !env.fixedProxy {
        var known := if blocked.None? then [] else blocked.value;
        if smartProxy.Some? {
          known := known + [smartProxy.value];
        }
        blocked := Some(known);
        smartProxy := fastest(known);
        route := if smartProxy.Some? then SmartProxy(smartProxy.value) else Direct;
      } else {
        route := if env.fixedProxy then FixedProxy else Direct;
        smartProxy := None;
      }
    }

    /** Lines 241-289: stream the body into `<name>.chunk<id>.tmp`, adding
        each read to the progress counter. */
    method ReadBody(env: Env, id: int, size: int, o: Outcome) returns (chunkReads: int, raised: bool, timedOut: bool)
      requires !exit && !env.stopped
      modifies this`files, this`progress
      ensures var d := DrainFrom(!env.managerExit, o.readSizes, o.end, size, 0, 0);
              && chunkReads == d.total && raised == d.raised && timedOut == d.timedOut
              && files == old(files)[TmpFile(id) := d.total]
              && progress == old(progress) + d.total
    {
      files := files[TmpFile(id) := 0];
      chunkReads, raised, timedOut := 0, false, false;
      var i := 0;
      while !exit && !env.stopped && !env.managerExit && chunkReads < size && i < |o.readSizes|
        invariant 0 <= i <= |o.readSizes| && chunkReads >= 0
        invariant DrainFrom(!env.managerExit, o.readSizes, o.end, size, i, chunkReads) == DrainFrom(!env.managerExit, o.readSizes, o.end, size, 0, 0)
        invariant files == old(files)[TmpFile(id) := chunkReads]
        invariant progress == old(progress) + chunkReads
        decreases |o.readSizes| - i
      {
        files := files[TmpFile(id) := files[TmpFile(id)] + o.readSizes[i]];
        chunkReads := chunkReads + o.readSizes[i];
        progress := progress + o.readSizes[i];
        i := i + 1;
      }
      if !env.managerExit && chunkReads < size && o.end != EndOfStream {
        raised := true;
        timedOut := o.end == ReadTimeout;
      }
    }

    /** Lines 217-302: the `try` block up to the success test. */
    method Transfer(env: Env, id: int, size: int, o: Outcome) returns (f: Fetched)
      requires httpError == 0
      modifies this`files, this`progress, this`httpError
      ensures f == Fetch(exit, env, id, size, o, old(files), old(progress))
      ensures files == f.files && progress == f.progress && httpError == f.httpError
    {
      f := Fetched(0, 0, false, false, false, files, progress);
      if !exit && !env.stopped {
        match o.response {
          case ConnectTimeout =>
            f := f.(timedOut := true);
          case ConnectFailure =>
          case BodyTimeout =>
            f := f.(timedOut := true);
          case BodyFailure =>
          case Status(code) =>
            if code != 200 {
              httpError := code;
              f := f.(httpError := code, checked := true);
            } else if ChunkFile(id) in files && files[ChunkFile(id)] == size {
              progress := progress + size;
              f := f.(chunkReads := size, checked := true, progress := progress);
            } else {
              var chunkReads, raised, timedOut := ReadBody(env, id, size, o);
              f := Fetched(0, chunkReads, timedOut, !raised, true, files, progress);
            }
        }
      }
    }

    /** One pass of the loop body of `run()` (lines 112-385). */
    method Attempt(env: Env, o: Outcome) returns (ended: bool, route: Option<Route>, success: bool, backoff: Option<int>)
      modifies this
      ensures exit == old(exit)
      ensures var r := Step(old(Snapshot()), old(exit), env, o);
              && Snapshot() == r.next
              && ended == r.ended && route == r.route && success == r.success && backoff == r.backoff
    {
      ghost var s0 := Snapshot();
      if url.None? || httpError == 403 {
        url := Some(o.freshUrl);
      }
      if o.grant.NoChunk? {
        assert Step(s0, exit, env, o) == StepResult(Snapshot(), true, None, false, 0, false, None);
        return true, None, false, None;
      }
      ended := false;
      route, success, backoff := Serve(env, o, s0);
    }

    /** Lines 129-381 once a chunk has been granted and the URL refreshed. */
    method Serve(env: Env, o: Outcome, ghost s0: State) returns (route: Option<Route>, success: bool, backoff: Option<int>)
      requires o.grant.Chunk?
      requires url == (if NeedsUrl(s0.url, s0.httpError) then Some(o.freshUrl) else s0.url)
      requires Snapshot() == s0.(url := url)
      modifies this
      ensures exit == old(exit)
      ensures var r := Step(s0, exit, env, o);
              && Snapshot() == r.next && !r.ended
              && route == r.route && success == r.success && backoff == r.backoff
    {
      var id, size := o.grant.id, o.grant.size;
      var r := PickRoute(env, o.fastest);
      route := Some(r);
      httpError := 0;
      slowProxy := false;
      var f := Transfer(env, id, size, o);
      success, backoff := Finish(env, id, size, o.slow, f, s0, ChooseRoute(s0, env, o.fastest));
    }

    /** Lines 304-381, once the `try` block is left with `f`. */
    method Finish(env: Env, id: int, size: int, slow: bool, f: Fetched, ghost s0: State, ghost c: Choice)
      returns (success: bool, backoff: Option<int>)
      requires smartProxy == c.smartProxy && blocked == c.blocked
      requires files == f.files && progress == f.progress && httpError == f.httpError
      requires rejected == s0.rejected && contaError == s0.contaError
      modifies this`files, this`contaError, this`httpError, this`slowProxy, this`rejected, this`progress
      ensures exit == old(exit)
      ensures var r := Settle(s0, old(url), c, f, exit, env, id, size, slow);
              && Snapshot() == r.next && success == r.success && backoff == r.backoff
    {
      ghost var r := Settle(s0, url, c, f, exit, env, id, size, slow);
      success := f.checked && f.chunkReads == size;
      if success {
        CommitChunk(id, size, slow, f.tmpCreated);
        backoff := None;
        assert r.next == State(url, 0, 0, c.smartProxy.Some? && slow, c.smartProxy, c.blocked,
                               f.progress, s0.rejected, files);
      } else {
        backoff := RejectChunk(env, id, f);
        assert r.next == State(url, f.httpError, contaError, false, c.smartProxy, c.blocked,
                               progress, rejected, files);
      }
    }

    /** Lines 308-336 after a success: the `.tmp` is renamed onto the chunk
        file, both error variables are reset, and the proxy in use is
        flagged slow when the benchmark says so. */
    method CommitChunk(id: int, size: int, slow: bool, tmpCreated: bool)
      modifies this`files, this`contaError, this`httpError, this`slowProxy
      ensures files == Commit(old(files), id, size, tmpCreated)
      ensures contaError == 0 && httpError == 0 && slowProxy == (smartProxy.Some? && slow)
    {
      files := Commit(files, id, size, tmpCreated);
      contaError := 0;
      httpError := 0;
      slowProxy := smartProxy.Some? && slow;
    }

    /** Lines 350-381 after a failure: the `.tmp` is deleted, the chunk
        rejected, the bytes read taken back from the progress, and the
        error counter incremented when the worker backs off. */
    method RejectChunk(env: Env, id: int, f: Fetched) returns (backoff: Option<int>)
      modifies this`files, this`rejected, this`progress, this`slowProxy, this`contaError
      ensures files == Discard(old(files), id, f.tmpCreated)
      ensures rejected == old(rejected) + [id]
      ensures progress == if f.chunkReads > 0 then old(progress) - f.chunkReads else old(progress)
      ensures !slowProxy
      ensures BacksOff(exit, env, f.timedOut, httpError) ==>
                contaError == old(contaError) + 1 && backoff == Some(contaError)
      ensures !BacksOff(exit, env, f.timedOut, httpError) ==>
                contaError == old(contaError) && backoff == None
    {
      files := Discard(files, id, f.tmpCreated);
      rejected := rejected + [id];
      if f.chunkReads > 0 {
        progress := progress - f.chunkReads;
      }
      slowProxy := false;
      backoff := None;
      if !exit && !env.stopped && !f.timedOut && (httpError != 509 || !env.smartMode) && httpError != 403 {
        contaError := contaError + 1;
        backoff := Some(contaError);
      }
    }

    /** The `while` loop of `run()` over the given rounds. */
    method Run(rounds: seq<Round>) returns (committed: seq<int>, attempts: nat)
      modifies this
      ensures exit == old(exit)
      ensures var r := RunSpec(old(Snapshot()), old(exit), rounds);
              && Snapshot() == r.final && committed == r.committed && attempts == r.attempts
    {
      committed, attempts := [], 0;
      var k := 0;
      while k < |rounds| && !exit && !rounds[k].env.stopped
        invariant 0 <= k <= |rounds|
        invariant exit == old(exit)
        invariant var rest := RunSpec(Snapshot(), exit, rounds[k..]);
                  RunSpec(old(Snapshot()), exit, rounds) ==
                    RunResult(rest.final, committed + rest.committed, attempts + rest.attempts)
        decreases |rounds| - k
      {
        ghost var before := Snapshot();
        var ended, route, success, backoff := Attempt(rounds[k].env, rounds[k].o);
        ghost var after := Snapshot();
        RunStep(old(Snapshot()), exit, rounds, k, before, after, ended, success, committed, attempts);
        if ended {
          return;
        }
        ghost var rest := RunSpec(after, exit, rounds[k + 1..]);
        ghost var done := committed + (if success then [rounds[k].o.grant.size] else []);
        assert RunSpec(old(Snapshot()), exit, rounds) == RunResult(rest.final, done + rest.committed, attempts + 1 + rest.attempts);
        if success {
          committed := committed + [rounds[k].o.grant.size];
        }
        attempts := attempts + 1;
        k := k + 1;
        assert Snapshot() == after;
        assert committed == done;
        assert RunSpec(Snapshot(), exit, rounds[k..]) == rest;
      }
    }
  }
}
