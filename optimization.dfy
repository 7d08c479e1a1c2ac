/** The performance helpers around a scan: a time-limited result cache, a
    sliding-window rate limiter, a FIFO job queue, the ordering of a pull
    request's files by priority and the cutting of a large pull request
    into batches.

    The clock is a parameter counted in seconds; the SHA-256 digest of the
    cache key is left out, so entries are keyed by the text it digests. */
module Optimization {
  import opened Wrappers
  import opened Text
  import opened Models
  import opened Collections
  import CodeAnalyzer

  /** The text `get_cache_key` digests. */
  function CacheKey(repoName: string, commitHash: string): (key: string)
    ensures StartsWith(key, repoName + ":") && EndsWith(key, commitHash) && |key| == |repoName| + 1 + |commitHash|
  {
    repoName + ":" + commitHash
  }

  /** Two different (repository, commit) pairs can share a key, because
      the separator may occur in either part. */
  lemma CacheKeyAmbiguous()
    ensures CacheKey("a:b", "c") == CacheKey("a", "b:c")
  {
  }

  /** The default of `ScanCache(ttl_minutes=...)`. */
  const DefaultTtlMinutes := 60

  /** `ScanCache`: scan results with the time they were stored. */
  class ScanCache<R> {
    var cache: map<string, (R, int)>
    var ttl: int

    constructor (ttlMinutes: int)
      ensures cache == map[] && ttl == ttlMinutes * 60
    {
      cache := map[];
      ttl := ttlMinutes * 60;
    }

    /** What `get` returns at time `now`: the stored result while it is
        younger than the time to live. */
    function Lookup(repoName: string, commitHash: string, now: int): (r: Option<R>)
      reads this
      ensures r.Some? <==> CacheKey(repoName, commitHash) in cache && now - cache[CacheKey(repoName, commitHash)].1 < ttl
      ensures r.Some? ==> r.value == cache[CacheKey(repoName, commitHash)].0
    {
      var key := CacheKey(repoName, commitHash);
      if key in cache && now - cache[key].1 < ttl then Some(cache[key].0) else None
    }

    /** `get`: a fresh entry is returned and kept; an expired one is
        removed. */
    method Get(repoName: string, commitHash: string, now: int) returns (r: Option<R>)
      modifies this
      ensures r == old(Lookup(repoName, commitHash, now)) && ttl == old(ttl)
      ensures r.Some? ==> cache == old(cache)
      ensures r.None? ==> cache == old(cache) - {CacheKey(repoName, commitHash)}
    {
      var key := CacheKey(repoName, commitHash);
      r := None;
      if key in cache {
        var (result, timestamp) := cache[key];
        if now - timestamp < ttl {
          r := Some(result);
        } else {
          cache := cache - {key};
        }
      }
    }

    /** `set`: the result is returned by every lookup within the time to
        live, and no other entry changes. */
    method Set(repoName: string, commitHash: string, result: R, now: int)
      modifies this
      ensures cache == old(cache)[CacheKey(repoName, commitHash) := (result, now)] && ttl == old(ttl)
      ensures forall later :: later < now + ttl ==> Lookup(repoName, commitHash, later) == Some(result)
    {
      cache := cache[CacheKey(repoName, commitHash) := (result, now)];
    }

    /** `clear`: nothing is found afterwards. */
    method Clear()
      modifies this
      ensures cache == map[] && ttl == old(ttl)
      ensures forall repoName, commitHash, now :: Lookup(repoName, commitHash, now) == None
    {
      cache := map[];
    }
  }

  /** The request times that lie inside the window ending at `now`. */
  function InWindow(now: int, windowSeconds: int): int -> bool
  {
    (t: int) => t > now - windowSeconds
  }

  lemma FilterTwice<T>(s: seq<T>, p: T -> bool)
    ensures Filter(Filter(s, p), p) == Filter(s, p)
  {
    FilterAll(Filter(s, p), p);
  }

  /** The smallest element of a non-empty sequence. */
  function Min(s: seq<int>): (m: int)
    requires |s| > 0
    ensures m in s && forall t :: t in s ==> m <= t
  {
    if |s| == 1 then s[0]
    else
      var m := Min(s[..|s| - 1]);
      assert s == s[..|s| - 1] + [s[|s| - 1]];
      if s[|s| - 1] < m then s[|s| - 1] else m
  }

  /** The defaults of `RateLimiter(max_requests=..., window_seconds=...)`. */
  const DefaultMaxRequests := 100
  const DefaultWindowSeconds := 60

  /** `RateLimiter`: the request times of every identifier. */
  class RateLimiter {
    var maxRequests: int
    var windowSeconds: int
    var requests: map<string, seq<int>>

    constructor (maxRequests: int, windowSeconds: int)
      ensures this.maxRequests == maxRequests && this.windowSeconds == windowSeconds && requests == map[]
    {
      this.maxRequests := maxRequests;
      this.windowSeconds := windowSeconds;
      requests := map[];
    }

    /** The identifier's requests inside the window ending at `now`. */
    function Recent(identifier: string, now: int): (r: seq<int>)
      reads this
      ensures forall t :: t in r <==> identifier in requests && t in requests[identifier] && t > now - windowSeconds
    {
      if identifier in requests then
        FilterEventsMembership(requests[identifier], InWindow(now, windowSeconds));
        Filter(requests[identifier], InWindow(now, windowSeconds))
      else []
    }

    /** `is_allowed`: drops the identifier's requests older than the
        window; allows the request, and records it, exactly when fewer
        than `maxRequests` remain. An allowed request uses up one unit of
        the remaining allowance, unless the window is empty. */
    method IsAllowed(identifier: string, now: int) returns (allowed: bool)
      modifies this
      ensures maxRequests == old(maxRequests) && windowSeconds == old(windowSeconds)
      ensures allowed <==> |old(Recent(identifier, now))| < maxRequests
      ensures requests == old(requests)[identifier := old(Recent(identifier, now)) + (if allowed then [now] else [])]
      ensures allowed ==> |Recent(identifier, now)| <= maxRequests
      ensures allowed && windowSeconds > 0 ==> GetRemaining(identifier, now) == old(GetRemaining(identifier, now)) - 1
      ensures !allowed ==> GetRemaining(identifier, now) == 0
    {
      var pruned := Recent(identifier, now);
      allowed := |pruned| < maxRequests;
      PruneThenRecord(if identifier in requests then requests[identifier] else [], now, windowSeconds, allowed);
      requests := requests[identifier := pruned + (if allowed then [now] else [])];
    }

    /** `get_reset_time`: when the oldest recorded request leaves the
        window, or None when there is no recorded request. */
    function GetResetTime(identifier: string): (r: Option<int>)
      reads this
      ensures r.None? <==> identifier !in requests || requests[identifier] == []
      ensures r.Some? ==> exists t :: t in requests[identifier] && r.value == t + windowSeconds
      ensures r.Some? ==> forall t :: t in requests[identifier] ==> r.value <= t + windowSeconds
    {
      if identifier !in requests || requests[identifier] == [] then None
      else Some(Min(requests[identifier]) + windowSeconds)
    }

    /** `get_remaining`: how many more requests the window allows. */
    function GetRemaining(identifier: string, now: int): (r: int)
      reads this
      ensures maxRequests >= 0 ==> 0 <= r <= maxRequests
      ensures identifier !in requests ==> r == maxRequests
      ensures identifier in requests ==> r == Max(0, maxRequests - |Recent(identifier, now)|)
    {
      if identifier !in requests then maxRequests
      else Max(0, maxRequests - |Recent(identifier, now)|)
    }
  }

  /** Pruning a request list and then recording `now` leaves, inside the
      window, the pruned list and `now` itself when the window is not
      empty. */
  lemma PruneThenRecord(s: seq<int>, now: int, windowSeconds: int, record: bool)
    ensures var p := InWindow(now, windowSeconds);
            Filter(Filter(s, p) + (if record then [now] else []), p)
              == Filter(s, p) + (if record && windowSeconds > 0 then [now] else [])
  {
    var p := InWindow(now, windowSeconds);
    var pruned := Filter(s, p);
    FilterTwice(s, p);
    if record {
      FilterConcat(pruned, [now], p);
      assert [now][..0] == [];
      assert p(now) <==> windowSeconds > 0;
      assert Filter([now], p) == (if windowSeconds > 0 then [now] else []);
    } else {
      assert pruned + [] == pruned;
    }
  }

  function Max(a: int, b: int): int
  {
    if a >= b then a else b
  }

  lemma FilterEventsMembership(s: seq<int>, p: int -> bool)
    ensures forall t :: t in Filter(s, p) <==> t in s && p(t)
  {
    forall t | true
      ensures t in Filter(s, p) <==> t in s && p(t)
    {
      FilterMembership(s, p, t);
    }
  }

  /** A queued job, as `enqueue` records it. */
  datatype Job = Job(id: string, data: map<string, Value>, status: string, createdAt: int)

  const Queued := "queued"

  /** `BackgroundJobQueue`. The ghost history records every job enqueued
      and every job handed out, to state the first-in first-out order. */
  class BackgroundJobQueue {
    var queue: seq<Job>
    var processing: map<string, bool>
    var results: map<string, Value>
    ghost var enqueued: seq<Job>
    ghost var dequeued: seq<Job>

    /** Jobs leave in the order they arrived: what has been handed out,
        followed by what waits, is what was enqueued. */
    ghost predicate Fifo()
      reads this
    {
      enqueued == dequeued + queue
    }

    constructor ()
      ensures queue == [] && processing == map[] && results == map[] && Fifo()
    {
      queue := [];
      processing := map[];
      results := map[];
      enqueued := [];
      dequeued := [];
    }

    /** `enqueue`. */
    method Enqueue(jobId: string, jobData: map<string, Value>, now: int)
      requires Fifo()
      modifies this
      ensures queue == old(queue) + [Job(jobId, jobData, Queued, now)] && Fifo()
      ensures processing == old(processing) && results == old(results)
    {
      var job := Job(jobId, jobData, Queued, now);
      queue := queue + [job];
      enqueued := enqueued + [job];
    }

    /** `dequeue`: the oldest waiting job, or None when none waits. */
    method Dequeue() returns (job: Option<Job>)
      requires Fifo()
      modifies this
      ensures Fifo() && processing == old(processing) && results == old(results)
      ensures old(queue) == [] ==> job == None && queue == [] && dequeued == old(dequeued)
      ensures old(queue) != [] ==> (job == Some(old(queue)[0]) && queue == old(queue)[1..]
                                    && dequeued == old(dequeued) + [old(queue)[0]])
      ensures old(queue) != [] ==> QueueSize() == old(QueueSize()) - 1
    {
      if queue != [] {
        job := Some(queue[0]);
        dequeued := dequeued + [queue[0]];
        queue := queue[1..];
      } else {
        job := None;
      }
    }

    /** `mark_processing`. */
    method MarkProcessing(jobId: string)
      modifies this
      ensures processing == old(processing)[jobId := true]
      ensures queue == old(queue) && results == old(results) && enqueued == old(enqueued) && dequeued == old(dequeued)
      ensures IsProcessing(jobId)
    {
      processing := processing[jobId := true];
    }

    /** `mark_complete`: the job no longer processes and its result is
        kept. */
    method MarkComplete(jobId: string, result: Value)
      modifies this
      ensures processing == old(processing)[jobId := false] && results == old(results)[jobId := result]
      ensures queue == old(queue) && enqueued == old(enqueued) && dequeued == old(dequeued)
      ensures !IsProcessing(jobId) && GetResult(jobId) == Some(result)
    {
      processing := processing[jobId := false];
      results := results[jobId := result];
    }

    /** `get_result`. */
    function GetResult(jobId: string): (r: Option<Value>)
      reads this
      ensures r.Some? <==> jobId in results
      ensures r.Some? ==> r.value == results[jobId]
    {
      if jobId in results then Some(results[jobId]) else None
    }

    /** `is_processing`: false for a job never marked. */
    function IsProcessing(jobId: string): (b: bool)
      reads this
      ensures b <==> jobId in processing && processing[jobId]
    {
      if jobId in processing then processing[jobId] else false
    }

    /** `queue_size`. */
    function QueueSize(): (n: nat)
      reads this
      ensures n == |queue|
      ensures Fifo() ==> n == |enqueued| - |dequeued|
    {
      |queue|
    }
  }

  /** The extensions `prioritize_files` treats as security-sensitive. */
  const SecurityExtensions: seq<string> := [".py", ".js", ".ts", ".java", ".go", ".rb"]

  const TestMarker := "test"

  predicate IsSecuritySensitive(filePath: string)
  {
    CodeAnalyzer.AnyExtensionFrom(filePath, SecurityExtensions, 0)
  }

  /** The priority of one file: security-sensitive files first, then
      small files, test files last. A security-sensitive file never scores
      below any other file's best. */
  function FileScore(filePath: string, content: string): (score: int)
    ensures IsSecuritySensitive(filePath) ==> 50 <= score <= 150
    ensures !IsSecuritySensitive(filePath) ==> -50 <= score <= 50
    ensures Contains(Lower(filePath), TestMarker) ==> score <= 130
  {
    (if IsSecuritySensitive(filePath) then 100 else 0)
    + (if |content| < 1000 then 50 else if |content| > 10000 then -30 else 0)
    - (if Contains(Lower(filePath), TestMarker) then 20 else 0)
  }

  function PairScore(file: (string, string)): int
  {
    FileScore(file.0, file.1)
  }

  /** A file's position in the input with its score. */
  datatype Ranked = Ranked(index: nat, score: int)

  /** The order of Python's stable sort by descending score: higher score
      first, and among equal scores the earlier file first. */
  predicate Before(a: Ranked, b: Ranked)
  {
    a.score > b.score || (a.score == b.score && a.index < b.index)
  }

  predicate Ranking(rs: seq<Ranked>)
  {
    forall a, b :: 0 <= a < b < |rs| ==> Before(rs[a], rs[b])
  }

  function Insert(rs: seq<Ranked>, x: Ranked): (r: seq<Ranked>)
  {
    if |rs| == 0 then [x]
    else if Before(x, rs[0]) then [x] + rs
    else [rs[0]] + Insert(rs[1..], x)
  }

  /** Inserting a file that comes after every ranked one keeps the ranking
      and adds exactly that file. */
  lemma {:induction false} InsertFacts(rs: seq<Ranked>, x: Ranked)
    requires Ranking(rs)
    requires forall k :: 0 <= k < |rs| ==> rs[k].index < x.index
    ensures Ranking(Insert(rs, x)) && |Insert(rs, x)| == |rs| + 1
    ensures forall y :: y in Insert(rs, x) <==> y in rs || y == x
  {
    if |rs| > 0 && !Before(x, rs[0]) {
      var tail := rs[1..];
      InsertFacts(tail, x);
      var r := Insert(rs, x);
      assert r == [rs[0]] + Insert(tail, x);
      forall a, b | 0 <= a < b < |r|
        ensures Before(r[a], r[b])
      {
        if a == 0 {
          assert r[b] in Insert(tail, x);
          assert r[b] in tail || r[b] == x;
        }
      }
    }
  }

  /** The sort of `prioritize_files`, as successive insertions. */
  method SortRanked(scored: seq<Ranked>) returns (ranked: seq<Ranked>)
    requires forall k :: 0 <= k < |scored| ==> scored[k].index == k
    ensures Ranking(ranked) && |ranked| == |scored|
    ensures forall y :: y in ranked <==> y in scored
  {
    ranked := [];
    for i := 0 to |scored|
      invariant Ranking(ranked) && |ranked| == i
      invariant forall y :: y in ranked <==> y in scored[..i]
    {
      forall k | 0 <= k < |ranked|
        ensures ranked[k].index < i
      {
        assert ranked[k] in scored[..i];
      }
      InsertFacts(ranked, scored[i]);
      ranked := Insert(ranked, scored[i]);
      assert scored[..i + 1] == scored[..i] + [scored[i]];
    }
    assert scored[..|scored|] == scored;
  }

  /** `prioritize_files`: the files, each once, by non-increasing score,
      files of equal score in their input order. `order[k]` is the input
      position of the `k`-th file of the result. */
  method PrioritizeFiles(files: seq<(string, string)>) returns (r: seq<(string, string)>, ghost order: seq<nat>)
    ensures |r| == |order| == |files|
    ensures forall k :: 0 <= k < |r| ==> order[k] < |files| && r[k] == files[order[k]]
    ensures forall j :: 0 <= j < |files| ==> j in order
    ensures forall k, l :: 0 <= k < l < |r| ==> PairScore(r[k]) >= PairScore(r[l])
    ensures forall k, l :: 0 <= k < l < |r| && PairScore(r[k]) == PairScore(r[l]) ==> order[k] < order[l]
  {
    var scored: seq<Ranked> := [];
    for i := 0 to |files|
      invariant |scored| == i
      invariant forall k :: 0 <= k < i ==> scored[k] == Ranked(k, PairScore(files[k]))
    {
      scored := scored + [Ranked(i, PairScore(files[i]))];
    }
    var ranked := SortRanked(scored);
    forall k | 0 <= k < |ranked|
      ensures ranked[k].index < |files| && ranked[k].score == PairScore(files[ranked[k].index])
    {
      assert ranked[k] in scored;
    }
    order := seq(|ranked|, k requires 0 <= k < |ranked| => ranked[k].index);
    r := seq(|ranked|, k requires 0 <= k < |ranked| => files[ranked[k].index]);
    forall j | 0 <= j < |files|
      ensures j in order
    {
      assert scored[j] in ranked;
      var k :| 0 <= k < |ranked| && ranked[k] == scored[j];
      assert order[k] == j;
    }
  }

  /** The total content length of some files. */
  function TotalSize(files: seq<(string, string)>): (n: nat)
  {
    if |files| == 0 then 0 else TotalSize(files[..|files| - 1]) + |files[|files| - 1].1|
  }

  /** The chunks one after the other. */
  function Flatten(chunks: seq<seq<(string, string)>>): seq<(string, string)>
  {
    if |chunks| == 0 then [] else Flatten(chunks[..|chunks| - 1]) + chunks[|chunks| - 1]
  }

  /** Every proper non-empty prefix of the chunk is within the limit. */
  predicate WithinLimit(chunk: seq<(string, string)>, limit: int)
  {
    forall j :: 1 <= j < |chunk| ==> TotalSize(chunk[..j]) <= limit
  }

  /** Adding a file to a chunk whose every non-empty prefix is within the
      limit gives a chunk whose proper prefixes are. */
  lemma Grow(current: seq<(string, string)>, file: (string, string), limit: int)
    requires forall j :: 1 <= j <= |current| ==> TotalSize(current[..j]) <= limit
    ensures WithinLimit(current + [file], limit)
    ensures TotalSize(current + [file]) == TotalSize(current) + |file.1|
  {
    var c := current + [file];
    assert c[..|c| - 1] == current;
    forall j | 1 <= j < |c|
      ensures TotalSize(c[..j]) <= limit
    {
      assert c[..j] == current[..j];
    }
  }

  /** Closed chunks: non-empty, over the limit, and not over it before
      their last file. */
  predicate Closed(chunks: seq<seq<(string, string)>>, limit: int)
  {
    forall k :: 0 <= k < |chunks| ==> chunks[k] != [] && WithinLimit(chunks[k], limit) && TotalSize(chunks[k]) > limit
  }

  /** The chunk being filled: none of its non-empty prefixes is over the
      limit. */
  predicate Open(current: seq<(string, string)>, limit: int)
  {
    forall j :: 1 <= j <= |current| ==> TotalSize(current[..j]) <= limit
  }

  lemma ClosedAppend(chunks: seq<seq<(string, string)>>, c: seq<(string, string)>, limit: int)
    requires Closed(chunks, limit) && c != [] && WithinLimit(c, limit) && TotalSize(c) > limit
    ensures Closed(chunks + [c], limit)
  {
  }

  lemma FlattenAppend(chunks: seq<seq<(string, string)>>, c: seq<(string, string)>)
    ensures Flatten(chunks + [c]) == Flatten(chunks) + c
  {
    assert (chunks + [c])[..|chunks|] == chunks;
  }

  /** One turn of the loop of `chunk_large_pr`: the file joins the open
      chunk, which is closed once it is over the limit. */
  method AddFile(chunks: seq<seq<(string, string)>>, current: seq<(string, string)>, currentSize: int,
                 file: (string, string), limit: int)
    returns (chunks': seq<seq<(string, string)>>, current': seq<(string, string)>, currentSize': int)
    requires Closed(chunks, limit) && Open(current, limit) && currentSize == TotalSize(current)
    ensures Closed(chunks', limit) && Open(current', limit) && currentSize' == TotalSize(current')
    ensures Flatten(chunks') + current' == Flatten(chunks) + current + [file]
  {
    Grow(current, file, limit);
    current' := current + [file];
    currentSize' := currentSize + |file.1|;
    if currentSize' > limit {
      ClosedAppend(chunks, current', limit);
      FlattenAppend(chunks, current');
      chunks' := chunks + [current'];
      current' := [];
      currentSize' := 0;
    } else {
      chunks' := chunks;
      assert current'[..|current'|] == current';
    }
  }

  /** The default `chunk_size` of `chunk_large_pr`, in thousands of characters. */
  const DefaultChunkSize := 10

  /** `chunk_large_pr`: files are gathered in order into a chunk until its
      total content length exceeds `chunkSize * 1000`; that chunk is closed
      and a new one starts. Every chunk but the last exceeds the limit, and
      no chunk would already have exceeded it without its last file. */
  method ChunkLargePr(files: seq<(string, string)>, chunkSize: int) returns (chunks: seq<seq<(string, string)>>)
    ensures Flatten(chunks) == files
    ensures forall k :: 0 <= k < |chunks| ==> chunks[k] != [] && WithinLimit(chunks[k], chunkSize * 1000)
    ensures forall k :: 0 <= k < |chunks| - 1 ==> TotalSize(chunks[k]) > chunkSize * 1000
  {
    var limit := chunkSize * 1000;
    chunks := [];
    var current: seq<(string, string)> := [];
    var currentSize := 0;
    for i := 0 to |files|
      invariant Flatten(chunks) + current == files[..i]
      invariant Closed(chunks, limit) && Open(current, limit) && currentSize == TotalSize(current)
    {
      assert files[..i + 1] == files[..i] + [files[i]];
      chunks, current, currentSize := AddFile(chunks, current, currentSize, files[i], limit);
    }
    assert files[..|files|] == files;
    if current != [] {
      CloseLast(chunks, current, limit);
      FlattenAppend(chunks, current);
      chunks := chunks + [current];
    }
  }

  /** Closing the open chunk at the end keeps every chunk within the limit
      before its last file, and all but the new last one over it. */
  lemma CloseLast(chunks: seq<seq<(string, string)>>, current: seq<(string, string)>, limit: int)
    requires Closed(chunks, limit) && Open(current, limit) && current != []
    ensures forall k :: 0 <= k < |chunks + [current]| ==> (chunks + [current])[k] != [] && WithinLimit((chunks + [current])[k], limit)
    ensures forall k :: 0 <= k < |chunks + [current]| - 1 ==> TotalSize((chunks + [current])[k]) > limit
  {
    assert WithinLimit(current, limit);
  }
}
