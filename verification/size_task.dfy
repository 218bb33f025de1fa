/** The state of one size task and its merge step `_after_fetch`: the
    settings clamp, the totals, the count of listings in flight, the error
    flag and the one-shot `started` flag. */
module SizeTask {
  import opened Base
  import opened Storage
  import opened Frontier

  const MaxThreads: int := 1000
  const DefaultThreads: int := 100

  /** How many listings may run in one round; also the number of clients. */
  type ThreadCount = n: int | 1 <= n <= 1000 witness 1

  /** The `max_thread` setting after construction: capped at 1000, and
      replaced by 100 when it is not positive. */
  function ClampThreads(requested: int): (n: ThreadCount)
    ensures requested <= 0 ==> n == DefaultThreads
    ensures requested > MaxThreads ==> n == MaxThreads
    ensures 1 <= requested <= MaxThreads ==> n == requested
  {
    var capped := Min(requested, MaxThreads);
    if capped <= 0 then DefaultThreads else capped
  }

  /** A size task. `order` is the iteration order of the keys of `jobs`. */
  datatype Task = Task(
    maxThread: ThreadCount,
    target: Option<BucketName>,
    order: seq<BucketName>,
    jobs: Stacks,
    total: nat,
    totalObjects: nat,
    running: int,
    error: bool,
    started: bool)

  /** A task as construction leaves it: no work, nothing counted, not started. */
  ghost predicate Fresh(t: Task)
  {
    && t.order == [] && t.jobs == map[]
    && t.total == 0 && t.totalObjects == 0 && t.running == 0
    && !t.error && !t.started
  }

  /** The dictionary `_jobs` with its iteration order. */
  ghost predicate Consistent(t: Task)
  {
    NoDup(t.order) && forall k :: k in t.order <==> k in t.jobs
  }

  function NewTask(requested: int, target: Option<BucketName>): (t: Task)
    ensures Fresh(t)
    ensures t.target == target
    ensures 1 <= t.maxThread <= MaxThreads
    ensures 1 <= requested <= MaxThreads ==> t.maxThread == requested
  {
    Task(ClampThreads(requested), target, [], map[], 0, 0, 0, false, false)
  }

  /** `_after_fetch`: count the reply's objects and bytes, retire one
      running listing, and push the discovered prefixes onto the reply's
      bucket. A reply for a bucket that has no stack raises after the
      counters were updated, which sets the error flag. */
  function Merge(t: Task, r: Reply): (t': Task)
    ensures t'.total == t.total + Sum(r.sizes)
    ensures t'.totalObjects == t.totalObjects + |r.sizes|
    ensures t'.running == t.running - 1
    ensures t'.jobs.Keys == t.jobs.Keys
    ensures r.bucket in t.jobs ==> t.jobs[r.bucket] <= t'.jobs[r.bucket]
    ensures r.bucket in t.jobs ==> t'.jobs[r.bucket][|t.jobs[r.bucket]|..] == r.prefixes
    ensures forall k :: k in t.jobs && k != r.bucket ==> t'.jobs[k] == t.jobs[k]
    ensures t'.error <==> t.error || r.bucket !in t.jobs
    ensures t'.order == t.order && t'.maxThread == t.maxThread
    ensures t'.started == t.started && t'.target == t.target
  {
    var counted := t.(total := t.total + Sum(r.sizes),
                      totalObjects := t.totalObjects + |r.sizes|,
                      running := t.running - 1);
    if r.bucket in t.jobs then
      counted.(jobs := t.jobs[r.bucket := t.jobs[r.bucket] + r.prefixes])
    else
      counted.(error := true)
  }

  /** The prefixes the replies push onto bucket `k`, in merge order. */
  function Appended(k: BucketName, rs: seq<Reply>): seq<Prefix>
  {
    if rs == [] then []
    else (if rs[0].bucket == k then rs[0].prefixes else []) + Appended(k, rs[1..])
  }

  /** Every reply names a bucket that has a stack. */
  predicate Known(buckets: set<BucketName>, rs: seq<Reply>)
  {
    rs == [] || (rs[0].bucket in buckets && Known(buckets, rs[1..]))
  }

  /** Every reply of a round merged, one after the other. */
  function MergeAll(t: Task, rs: seq<Reply>): (t': Task)
    ensures t'.total == t.total + SumOver(BytesOf, rs)
    ensures t'.totalObjects == t.totalObjects + SumOver(CountOf, rs)
    ensures t'.running == t.running - |rs|
    ensures t'.jobs.Keys == t.jobs.Keys
    ensures t'.error <==> t.error || !Known(t.jobs.Keys, rs)
    ensures t'.order == t.order && t'.maxThread == t.maxThread
    ensures t'.started == t.started && t'.target == t.target
    decreases |rs|
  {
    if rs == [] then t
    else
      var t1 := Merge(t, rs[0]);
      MergeAll(t1, rs[1..])
  }

  /** Each bucket's stack ends up as it was, followed by the prefixes the
      replies for that bucket discovered, in merge order. */
  lemma {:induction false} MergeAllStacks(t: Task, rs: seq<Reply>, k: BucketName)
    requires k in t.jobs
    ensures MergeAll(t, rs).jobs[k] == t.jobs[k] + Appended(k, rs)
    decreases |rs|
  {
    if rs != [] {
      var t1 := Merge(t, rs[0]);
      MergeAllStacks(t1, rs[1..], k);
      var pushed := if rs[0].bucket == k then rs[0].prefixes else [];
      assert t1.jobs[k] == t.jobs[k] + pushed;
      assert Appended(k, rs) == pushed + Appended(k, rs[1..]);
    }
  }

  /** How often prefix `p` is pushed onto bucket `k` by one reply. */
  ghost function PushCount(k: BucketName, p: Prefix): Reply -> nat
  {
    (r: Reply) => if r.bucket == k then multiset(r.prefixes)[p] else 0
  }

  lemma {:induction false} AppendedCount(k: BucketName, p: Prefix, rs: seq<Reply>)
    ensures multiset(Appended(k, rs))[p] == SumOver(PushCount(k, p), rs)
    decreases |rs|
  {
    if rs != [] {
      AppendedCount(k, p, rs[1..]);
    }
  }

  lemma {:induction false} KnownAll(buckets: set<BucketName>, rs: seq<Reply>)
    ensures Known(buckets, rs) <==> forall r :: r in rs ==> r.bucket in buckets
    decreases |rs|
  {
    if rs != [] {
      KnownAll(buckets, rs[1..]);
      assert rs == [rs[0]] + rs[1..];
    }
  }

  lemma KnownPermutation(buckets: set<BucketName>, rs1: seq<Reply>, rs2: seq<Reply>)
    requires multiset(rs1) == multiset(rs2)
    ensures Known(buckets, rs1) <==> Known(buckets, rs2)
  {
    KnownAll(buckets, rs1);
    KnownAll(buckets, rs2);
    forall r ensures r in rs1 <==> r in rs2 {
      assert r in rs1 <==> r in multiset(rs1);
      assert r in rs2 <==> r in multiset(rs2);
    }
  }

  /** Reordering the replies reorders what they push onto one bucket. */
  lemma AppendedPermutation(k: BucketName, rs1: seq<Reply>, rs2: seq<Reply>)
    requires multiset(rs1) == multiset(rs2)
    ensures multiset(Appended(k, rs1)) == multiset(Appended(k, rs2))
  {
    forall p | true
      ensures multiset(Appended(k, rs1))[p] == multiset(Appended(k, rs2))[p]
    {
      AppendedCount(k, p, rs1);
      AppendedCount(k, p, rs2);
      SumOverPermutation(PushCount(k, p), rs1, rs2);
    }
  }

  /** The outcome of a round does not depend on the order in which the
      workers' replies are merged: the totals, the running count, the error
      flag and the contents of every stack come out the same. */
  lemma MergeOrderIndependent(t: Task, rs1: seq<Reply>, rs2: seq<Reply>)
    requires multiset(rs1) == multiset(rs2)
    ensures MergeAll(t, rs1).total == MergeAll(t, rs2).total
    ensures MergeAll(t, rs1).totalObjects == MergeAll(t, rs2).totalObjects
    ensures MergeAll(t, rs1).running == MergeAll(t, rs2).running
    ensures MergeAll(t, rs1).error == MergeAll(t, rs2).error
    ensures MergeAll(t, rs1).jobs.Keys == MergeAll(t, rs2).jobs.Keys
    ensures forall k :: k in t.jobs ==>
      multiset(MergeAll(t, rs1).jobs[k]) == multiset(MergeAll(t, rs2).jobs[k])
  {
    SumOverPermutation(BytesOf, rs1, rs2);
    SumOverPermutation(CountOf, rs1, rs2);
    assert |rs1| == |multiset(rs1)| == |rs2|;
    forall k | k in t.jobs
      ensures multiset(MergeAll(t, rs1).jobs[k]) == multiset(MergeAll(t, rs2).jobs[k])
    {
      MergeAllStacks(t, rs1, k);
      MergeAllStacks(t, rs2, k);
      AppendedPermutation(k, rs1, rs2);
    }
    KnownPermutation(t.jobs.Keys, rs1, rs2);
  }

  /** Every job the replies discover, reply by reply. */
  function Discovered(rs: seq<Reply>): seq<Job>
  {
    if rs == [] then [] else Children(rs[0]) + Discovered(rs[1..])
  }

  /** Merging a round's replies adds exactly the discovered jobs to the
      pending work. */
  lemma {:induction false} MergeAllPending(t: Task, rs: seq<Reply>)
    requires Consistent(t)
    requires Known(t.jobs.Keys, rs)
    ensures multiset(PendingJobs(t.order, MergeAll(t, rs).jobs))
            == multiset(PendingJobs(t.order, t.jobs)) + multiset(Discovered(rs))
    decreases |rs|
  {
    if rs != [] {
      var r := rs[0];
      var t1 := Merge(t, r);
      assert t1.jobs == t.jobs[r.bucket := t.jobs[r.bucket] + r.prefixes];
      PendingAppend(t.order, t.jobs, r.bucket, r.prefixes);
      MergeAllPending(t1, rs[1..]);
      assert MergeAll(t, rs) == MergeAll(t1, rs[1..]);
    }
  }
}
