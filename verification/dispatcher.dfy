/** The round loop of `start`: drain a batch of at most `max_thread` jobs,
    count them as running, let every worker list its prefix, merge every
    reply, and repeat until no prefix is pending or the error flag is set.
    The threads and the condition variable are replaced by merging the
    replies of a batch one after the other, in whatever order the workers
    finish: a round takes its merge order as an argument, and `start` takes
    a scheduler that picks one per round. */
module Dispatcher {
  import opened Base
  import opened Storage
  import opened Frontier
  import opened SizeTask

  /** The replies of one batch, one per drained job. */
  function Replies(pv: Provider, batch: seq<Job>): (rs: seq<Reply>)
    ensures |rs| == |batch|
    ensures forall i :: 0 <= i < |batch| ==> rs[i] == Fetch(pv, batch[i])
  {
    if batch == [] then [] else [Fetch(pv, batch[0])] + Replies(pv, batch[1..])
  }

  /** A drained job paired with the client that lists it. */
  datatype Request = Request(job: Job, client: nat)

  /** The `task_args` of a round: the job drained as the `count`-th of the
      round is listed with `self._clients[count]`. */
  function Assign(batch: seq<Job>, clients: ThreadCount): (reqs: seq<Request>)
    requires |batch| <= clients
    ensures |reqs| == |batch|
    ensures forall i :: 0 <= i < |reqs| ==> reqs[i].job == batch[i] && reqs[i].client < clients
    ensures forall i, j :: 0 <= i < j < |reqs| ==> reqs[i].client != reqs[j].client
  {
    seq(|batch|, i requires 0 <= i < |batch| => Request(batch[i], i))
  }

  /** A round never drains more jobs than there are clients, so every job
      of the batch gets a client slot of its own. */
  lemma RoundFitsClients(t: Task)
    requires Consistent(t)
    ensures var batch := Drain(t.order, t.jobs, t.maxThread).0;
      |batch| == Min(t.maxThread, |PendingJobs(t.order, t.jobs)|)
      && |Assign(batch, t.maxThread)| == |batch|
  {
    DrainSize(t.order, t.jobs, t.maxThread);
  }

  lemma {:induction false} RepliesKnown(pv: Provider, batch: seq<Job>, buckets: set<BucketName>)
    requires forall i :: 0 <= i < |batch| ==> batch[i].bucket in buckets
    ensures Known(buckets, Replies(pv, batch))
    decreases |batch|
  {
    if batch != [] {
      assert forall i :: 0 <= i < |batch[1..]| ==> batch[1..][i] == batch[i + 1];
      RepliesKnown(pv, batch[1..], buckets);
    }
  }

  /** The jobs a round drains, in dispatch order. */
  function Batch(t: Task): seq<Job>
    requires Consistent(t)
  {
    Drain(t.order, t.jobs, t.maxThread).0
  }

  /** The task once a round's batch is drained and counted as running. */
  function Dispatched(t: Task): (d: Task)
    requires Consistent(t)
    ensures Consistent(d)
    ensures d.order == t.order && d.jobs.Keys == t.jobs.Keys
    ensures d.running == t.running + |Batch(t)|
    ensures d.error == t.error && d.total == t.total && d.totalObjects == t.totalObjects
    ensures d.maxThread == t.maxThread && d.started == t.started && d.target == t.target
    ensures forall i :: 0 <= i < |Batch(t)| ==> Batch(t)[i].bucket in d.jobs
  {
    DrainBuckets(t.order, t.jobs, t.maxThread);
    t.(jobs := Drain(t.order, t.jobs, t.maxThread).1, running := t.running + |Batch(t)|)
  }

  /** `rs` is an order in which the workers of the round can finish: the
      replies of the batch, each merged once. */
  ghost predicate Interleaving(pv: Provider, t: Task, rs: seq<Reply>)
    requires Consistent(t)
  {
    multiset(rs) == multiset(Replies(pv, Batch(t)))
  }

  /** One round: drain, count the batch as running, and merge every reply
      in the order `rs` the workers finish in. */
  function Round(pv: Provider, t: Task, rs: seq<Reply>): (t': Task)
    requires Consistent(t) && Interleaving(pv, t, rs)
    ensures Consistent(t')
    ensures t'.order == t.order && t'.jobs.Keys == t.jobs.Keys
    ensures t'.running == t.running
    ensures t'.error == t.error
    ensures t'.maxThread == t.maxThread && t'.started == t.started && t'.target == t.target
  {
    var batch := Batch(t);
    RepliesKnown(pv, batch, Dispatched(t).jobs.Keys);
    KnownPermutation(Dispatched(t).jobs.Keys, rs, Replies(pv, batch));
    assert |rs| == |multiset(rs)| == |Replies(pv, batch)|;
    MergeAll(Dispatched(t), rs)
  }

  /** What the replies of a batch add to the totals is what the batch's own
      listings hold, and a batch of n jobs is n listings. */
  lemma {:induction false} RepliesLocal(pv: Provider, batch: seq<Job>)
    ensures SumOver(BytesOf, Replies(pv, batch)) == SumOver(LocalFn(pv, Bytes), batch)
    ensures SumOver(CountOf, Replies(pv, batch)) == SumOver(LocalFn(pv, Objects), batch)
    ensures SumOver(LocalFn(pv, Listings), batch) == |batch|
    decreases |batch|
  {
    if batch != [] {
      RepliesLocal(pv, batch[1..]);
    }
  }

  /** The trees below a batch are the batch's own listings plus the trees
      below every prefix the batch discovers. */
  lemma {:induction false} BatchUnfold(pv: Provider, m: Measure, batch: seq<Job>)
    requires WellFormed(pv)
    ensures SumOver(TreeFn(pv, m), batch)
            == SumOver(LocalFn(pv, m), batch) + SumOver(TreeFn(pv, m), Discovered(Replies(pv, batch)))
    decreases |batch|
  {
    if batch != [] {
      var j := batch[0];
      BatchUnfold(pv, m, batch[1..]);
      ExploreUnfold(pv, m, j);
      assert Discovered(Replies(pv, batch)) == Unfold(pv, j) + Discovered(Replies(pv, batch[1..]));
      SumOverConcat(TreeFn(pv, m), Unfold(pv, j), Discovered(Replies(pv, batch[1..])));
    }
  }

  /** The measure of the trees below the prefixes one reply discovers. */
  ghost function ChildTotal(f: Job -> nat): Reply -> nat
  {
    (r: Reply) => SumOver(f, Children(r))
  }

  lemma {:induction false} DiscoveredSum(f: Job -> nat, rs: seq<Reply>)
    ensures SumOver(f, Discovered(rs)) == SumOver(ChildTotal(f), rs)
    decreases |rs|
  {
    if rs != [] {
      DiscoveredSum(f, rs[1..]);
      SumOverConcat(f, Children(rs[0]), Discovered(rs[1..]));
    }
  }

  /** What the replies of a round discover weighs the same in every merge order. */
  lemma DiscoveredPermutation(f: Job -> nat, rs1: seq<Reply>, rs2: seq<Reply>)
    requires multiset(rs1) == multiset(rs2)
    ensures SumOver(f, Discovered(rs1)) == SumOver(f, Discovered(rs2))
  {
    DiscoveredSum(f, rs1);
    DiscoveredSum(f, rs2);
    SumOverPermutation(ChildTotal(f), rs1, rs2);
  }

  /** The measure of every listing still to be made from the pending jobs. */
  ghost function Remaining(pv: Provider, m: Measure, t: Task): nat
  {
    SumOver(TreeFn(pv, m), PendingJobs(t.order, t.jobs))
  }

  /** What a round merges, in any order, is exactly what leaves the
      pending trees. */
  lemma RoundMeasure(pv: Provider, m: Measure, t: Task, rs: seq<Reply>)
    requires WellFormed(pv)
    requires Consistent(t) && Interleaving(pv, t, rs)
    ensures Remaining(pv, m, Round(pv, t, rs)) + SumOver(LocalFn(pv, m), Batch(t)) == Remaining(pv, m, t)
  {
    var batch := Batch(t);
    var dispatched := Dispatched(t);
    var f := TreeFn(pv, m);
    var p0 := PendingJobs(t.order, t.jobs);
    var p1 := PendingJobs(t.order, dispatched.jobs);
    var p2 := PendingJobs(t.order, Round(pv, t, rs).jobs);
    DrainConserves(t.order, t.jobs, t.maxThread);
    SumOverPermutation(f, batch + p1, p0);
    SumOverConcat(f, batch, p1);
    RepliesKnown(pv, batch, dispatched.jobs.Keys);
    KnownPermutation(dispatched.jobs.Keys, rs, Replies(pv, batch));
    MergeAllPending(dispatched, rs);
    SumOverPermutation(f, p1 + Discovered(rs), p2);
    SumOverConcat(f, p1, Discovered(rs));
    DiscoveredPermutation(f, rs, Replies(pv, batch));
    BatchUnfold(pv, m, batch);
  }

  /** A round, in any merge order, keeps totals plus pending work constant,
      and takes min(max_thread, pending) listings off the pending work. */
  lemma RoundProgress(pv: Provider, t: Task, rs: seq<Reply>)
    requires WellFormed(pv)
    requires Consistent(t) && Interleaving(pv, t, rs)
    ensures Round(pv, t, rs).total + Remaining(pv, Bytes, Round(pv, t, rs))
            == t.total + Remaining(pv, Bytes, t)
    ensures Round(pv, t, rs).totalObjects + Remaining(pv, Objects, Round(pv, t, rs))
            == t.totalObjects + Remaining(pv, Objects, t)
    ensures Remaining(pv, Listings, Round(pv, t, rs)) + Min(t.maxThread, |PendingJobs(t.order, t.jobs)|)
            == Remaining(pv, Listings, t)
  {
    var batch := Batch(t);
    RoundMeasure(pv, Bytes, t, rs);
    RoundMeasure(pv, Objects, t, rs);
    RoundMeasure(pv, Listings, t, rs);
    SumOverPermutation(BytesOf, rs, Replies(pv, batch));
    SumOverPermutation(CountOf, rs, Replies(pv, batch));
    RepliesLocal(pv, batch);
    DrainSize(t.order, t.jobs, t.maxThread);
  }

  /** Why `start` ends without a summary: a second call, or an exception
      out of `_before_start`. The source's third way, the internal-error
      flag, is never set on a run over a well-formed provider (`RunRounds`
      ends with it clear), so it has no constructor here. */
  datatype StartError = AlreadyStarted | SetupFailed

  /** The summary `start` prints: object count and raw byte count. */
  datatype Summary = Summary(objects: nat, bytes: nat)

  /** The root jobs seeding creates. */
  ghost function Roots(pv: Provider, target: Option<BucketName>): seq<Job>
  {
    var (order, jobs) := Seed(pv, target);
    PendingJobs(order, jobs)
  }

  /** The measure of every listing reachable from the seeded roots. */
  ghost function Reachable(pv: Provider, m: Measure, target: Option<BucketName>): nat
  {
    SumOver(TreeFn(pv, m), Roots(pv, target))
  }

  /** A scheduler picks, for every round, the order in which the workers'
      replies reach `_after_fetch`; any order of the batch's replies is
      possible. */
  ghost predicate Scheduler(sched: (nat, seq<Reply>) -> seq<Reply>)
  {
    forall k, rs :: multiset(sched(k, rs)) == multiset(rs)
  }

  /** The round loop of `start`: from a consistent started task with
      nothing running, rounds run until no prefix is pending. Every listing
      below the pending prefixes is merged exactly once, whatever the merge
      orders, and no round lists more than max_thread prefixes. */
  method RunRounds(pv: Provider, t: Task, sched: (nat, seq<Reply>) -> seq<Reply>)
    returns (st: Task, rounds: nat)
    requires WellFormed(pv) && Scheduler(sched)
    requires Consistent(t) && !t.error && t.running == 0
    ensures Consistent(st) && st.order == t.order && PendingJobs(st.order, st.jobs) == []
    ensures !st.error && st.running == 0
    ensures st.maxThread == t.maxThread && st.started == t.started && st.target == t.target
    ensures st.total == t.total + Remaining(pv, Bytes, t)
    ensures st.totalObjects == t.totalObjects + Remaining(pv, Objects, t)
    ensures rounds <= Remaining(pv, Listings, t) <= rounds * t.maxThread
  {
    ghost var bytes, objects, listings :=
      t.total + Remaining(pv, Bytes, t), t.totalObjects + Remaining(pv, Objects, t), Remaining(pv, Listings, t);
    st := t;
    rounds := 0;
    var done := |PendingJobs(st.order, st.jobs)| == 0;
    while !done && !st.error
      invariant done <==> PendingJobs(st.order, st.jobs) == []
      invariant Consistent(st) && st.order == t.order
      invariant !st.error && st.running == 0
      invariant st.maxThread == t.maxThread && st.started == t.started && st.target == t.target
      invariant st.total + Remaining(pv, Bytes, st) == bytes
      invariant st.totalObjects + Remaining(pv, Objects, st) == objects
      invariant rounds + Remaining(pv, Listings, st) <= listings <= rounds * t.maxThread + Remaining(pv, Listings, st)
      decreases Remaining(pv, Listings, st)
    {
      var rs := sched(rounds, Replies(pv, Batch(st)));
      RoundProgress(pv, st, rs);
      assert (rounds + 1) * t.maxThread == rounds * t.maxThread + t.maxThread;
      st := Round(pv, st, rs);
      rounds := rounds + 1;
      done := |PendingJobs(st.order, st.jobs)| == 0;
    }
  }

  /** `start`: refuses a second run; marks the task started before seeding,
      so a failed seeding leaves it dead; otherwise runs rounds, each merged
      in the order `sched` picks, until no prefix is pending or the error
      flag is set. */
  method Start(pv: Provider, t: Task, sched: (nat, seq<Reply>) -> seq<Reply>)
    returns (after: Task, r: Result<Summary, StartError>, rounds: nat)
    requires WellFormed(pv)
    requires t.started || Fresh(t)
    requires Scheduler(sched)
    ensures t.started ==> after == t && r == Failure(AlreadyStarted) && rounds == 0
    ensures !t.started && pv.setupFails(t.target) ==>
      after == t.(started := true) && r == Failure(SetupFailed) && rounds == 0
    ensures !t.started && !pv.setupFails(t.target) ==>
      r == Success(Summary(after.totalObjects, after.total))
      && after.started && !after.error && after.running == 0
      && PendingJobs(after.order, after.jobs) == []
    ensures !t.started && !pv.setupFails(t.target) ==>
      after.total == Reachable(pv, Bytes, t.target)
      && after.totalObjects == Reachable(pv, Objects, t.target)
    ensures !t.started && !pv.setupFails(t.target) ==>
      rounds <= Reachable(pv, Listings, t.target) <= rounds * t.maxThread
    ensures !t.started && !pv.setupFails(t.target) && NoFailures(pv) ==>
      after.total == Sum(StoredUnder(pv, Roots(pv, t.target)))
      && after.totalObjects == |StoredUnder(pv, Roots(pv, t.target))|
    ensures !t.started && !pv.setupFails(t.target) && t.target.Some? && !pv.hasBucket(t.target.value) ==>
      rounds == 0 && after.total == 0 && after.totalObjects == 0
  {
    if t.started {
      return t, Failure(AlreadyStarted), 0;
    }
    if pv.setupFails(t.target) {
      return t.(started := true), Failure(SetupFailed), 0;
    }
    var seeded := Seed(pv, t.target);
    var st := t.(started := true, order := seeded.0, jobs := seeded.1);
    assert Remaining(pv, Listings, st) == Reachable(pv, Listings, t.target);
    after, rounds := RunRounds(pv, st, sched);
    if NoFailures(pv) {
      ExploreCountsStoredUnder(pv, Roots(pv, t.target));
    }
    r := Success(Summary(after.totalObjects, after.total));
  }
}
