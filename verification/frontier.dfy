/** The work list of a size task: one stack of pending prefixes per bucket
    (`_jobs`), the draining of one round's batch from those stacks, and the
    seeding of the stacks before the first round. */
module Frontier {
  import opened Base
  import opened Storage

  /** `_jobs`: bucket name to a stack of pending prefixes, top at the end. */
  type Stacks = map<BucketName, seq<Prefix>>

  /** Every pending job, bucket by bucket in `order`, each stack bottom to top. */
  function PendingJobs(order: seq<BucketName>, jobs: Stacks): seq<Job>
  {
    if order == [] then []
    else
      (if order[0] in jobs then Tag(order[0], jobs[order[0]]) else [])
      + PendingJobs(order[1..], jobs)
  }

  lemma {:induction false} PendingIgnores(order: seq<BucketName>, jobs: Stacks, b: BucketName, s: seq<Prefix>)
    requires b !in order
    ensures PendingJobs(order, jobs[b := s]) == PendingJobs(order, jobs)
  {
    if order != [] {
      PendingIgnores(order[1..], jobs, b, s);
    }
  }

  lemma PendingUnfold(order: seq<BucketName>, jobs: Stacks)
    requires order != [] && order[0] in jobs
    ensures PendingJobs(order, jobs) == Tag(order[0], jobs[order[0]]) + PendingJobs(order[1..], jobs)
  {
  }

  /** Appending prefixes to one bucket's stack adds exactly those jobs to
      the pending work and nothing else. */
  lemma {:induction false} PendingAppend(order: seq<BucketName>, jobs: Stacks, b: BucketName, ps: seq<Prefix>)
    requires NoDup(order)
    requires b in order && b in jobs
    ensures multiset(PendingJobs(order, jobs[b := jobs[b] + ps]))
            == multiset(PendingJobs(order, jobs)) + multiset(Tag(b, ps))
  {
    HeadNotInTail(order);
    if order[0] == b {
      PendingAppendHead(order, jobs, ps);
    } else {
      var jobs' := jobs[b := jobs[b] + ps];
      var tail := order[1..];
      PendingAppend(tail, jobs, b, ps);
      var head := if order[0] in jobs then Tag(order[0], jobs[order[0]]) else [];
      assert PendingJobs(order, jobs') == head + PendingJobs(tail, jobs');
      assert PendingJobs(order, jobs) == head + PendingJobs(tail, jobs);
    }
  }

  lemma PendingAppendHead(order: seq<BucketName>, jobs: Stacks, ps: seq<Prefix>)
    requires order != [] && order[0] !in order[1..] && order[0] in jobs
    ensures multiset(PendingJobs(order, jobs[order[0] := jobs[order[0]] + ps]))
            == multiset(PendingJobs(order, jobs)) + multiset(Tag(order[0], ps))
  {
    var b := order[0];
    var jobs' := jobs[b := jobs[b] + ps];
    PendingIgnores(order[1..], jobs, b, jobs[b] + ps);
    TagConcat(b, jobs[b], ps);
    PendingUnfold(order, jobs);
    PendingUnfold(order, jobs');
  }


  /** The inner `while` of the drain: pops up to `budget` prefixes off
      the end of one stack. Returns the popped prefixes in pop order and
      what is left of the stack. */
  function PopUpTo(stack: seq<Prefix>, budget: nat): (r: (seq<Prefix>, seq<Prefix>))
    ensures |r.0| == Min(budget, |stack|)
    decreases budget
  {
    if budget == 0 || stack == [] then ([], stack)
    else
      var sub := PopUpTo(stack[..|stack| - 1], budget - 1);
      ([stack[|stack| - 1]] + sub.0, sub.1)
  }

  /** A sequence read back to front. */
  function Reverse(s: seq<Prefix>): (r: seq<Prefix>)
    ensures |r| == |s|
  {
    if s == [] then [] else Reverse(s[1..]) + [s[0]]
  }

  lemma {:induction false} ReverseMultiset(s: seq<Prefix>)
    ensures multiset(Reverse(s)) == multiset(s)
    decreases |s|
  {
    if s != [] {
      ReverseMultiset(s[1..]);
      assert s == [s[0]] + s[1..];
    }
  }

  /** Reversing puts the i-th element from the end at position i. */
  lemma {:induction false} ReverseIndex(s: seq<Prefix>, i: nat)
    requires i < |s|
    ensures Reverse(s)[i] == s[|s| - 1 - i]
    decreases |s|
  {
    if i < |s| - 1 {
      ReverseIndex(s[1..], i);
      assert Reverse(s)[i] == Reverse(s[1..])[i];
    }
  }

  /** Popping is last-in-first-out: the stack is what is left followed by
      the popped prefixes in reverse pop order. */
  lemma {:induction false} PopUpToSplit(stack: seq<Prefix>, budget: nat)
    ensures stack == PopUpTo(stack, budget).1 + Reverse(PopUpTo(stack, budget).0)
    decreases budget
  {
    if budget != 0 && stack != [] {
      var init := stack[..|stack| - 1];
      var sub := PopUpTo(init, budget - 1);
      PopUpToSplit(init, budget - 1);
      var last := stack[|stack| - 1];
      var popped := [last] + sub.0;
      assert PopUpTo(stack, budget) == (popped, sub.1);
      assert popped[0] == last && popped[1..] == sub.0;
      assert Reverse(popped) == Reverse(sub.0) + [last];
      calc {
        sub.1 + Reverse(popped);
        sub.1 + (Reverse(sub.0) + [last]);
        (sub.1 + Reverse(sub.0)) + [last];
        init + [last];
        stack;
      }
    }
  }

  /** Popping is last-in-first-out: the i-th popped prefix is the i-th
      from the top of the stack. */
  lemma {:induction false} PopUpToLifo(stack: seq<Prefix>, budget: nat)
    ensures forall i :: 0 <= i < |PopUpTo(stack, budget).0| ==>
      PopUpTo(stack, budget).0[i] == stack[|stack| - 1 - i]
  {
    var popped, rest := PopUpTo(stack, budget).0, PopUpTo(stack, budget).1;
    PopUpToSplit(stack, budget);
    forall i | 0 <= i < |popped|
      ensures popped[i] == stack[|stack| - 1 - i]
    {
      ReverseIndex(popped, |popped| - 1 - i);
      assert stack[|stack| - 1 - i] == Reverse(popped)[|popped| - 1 - i];
    }
  }

  /** What is popped plus what is left is the stack it came from. */
  lemma PopUpToConserves(stack: seq<Prefix>, budget: nat)
    ensures multiset(PopUpTo(stack, budget).0) + multiset(PopUpTo(stack, budget).1) == multiset(stack)
  {
    var popped, rest := PopUpTo(stack, budget).0, PopUpTo(stack, budget).1;
    PopUpToSplit(stack, budget);
    ReverseMultiset(popped);
    assert multiset(stack) == multiset(rest) + multiset(Reverse(popped));
  }

  lemma HeadNotInTail(order: seq<BucketName>)
    requires NoDup(order) && order != []
    ensures NoDup(order[1..]) && order[0] !in order[1..]
  {
    forall i | 0 <= i < |order[1..]| ensures order[1..][i] != order[0] {
      assert order[1..][i] == order[i + 1];
    }
  }

  /** One round's drain (the `for key in self._jobs` loop): buckets in
      `order`, each popped until it is empty or the budget is spent. Returns
      the batch in dispatch order and the stacks left behind. */
  function Drain(order: seq<BucketName>, jobs: Stacks, budget: nat): (r: (seq<Job>, Stacks))
    requires forall k :: k in order ==> k in jobs
    ensures r.1.Keys == jobs.Keys
    decreases order
  {
    if order == [] || budget == 0 then ([], jobs)
    else
      var b := order[0];
      var pr := PopUpTo(jobs[b], budget);
      var r := Drain(order[1..], jobs[b := pr.1], budget - |pr.0|);
      (Tag(b, pr.0) + r.0, r.1)
  }

  /** One step of the drain: the first bucket's popped jobs, then the drain
      of the remaining buckets with what is left of the first stack. */
  lemma DrainUnfold(order: seq<BucketName>, jobs: Stacks, budget: nat)
    requires forall k :: k in order ==> k in jobs
    requires order != [] && budget != 0
    ensures var pr := PopUpTo(jobs[order[0]], budget);
      var r := Drain(order[1..], jobs[order[0] := pr.1], budget - |pr.0|);
      Drain(order, jobs, budget) == (Tag(order[0], pr.0) + r.0, r.1)
  {
  }

  /** The rest of the drain leaves the first bucket's remainder alone. */
  lemma DrainKeepsHead(order: seq<BucketName>, jobs: Stacks, budget: nat)
    requires forall k :: k in order ==> k in jobs
    requires order != [] && order[0] !in order[1..]
    ensures var pr := PopUpTo(jobs[order[0]], budget);
      Drain(order[1..], jobs[order[0] := pr.1], budget - |pr.0|).1[order[0]] == pr.1
  {
    var pr := PopUpTo(jobs[order[0]], budget);
    DrainLeaves(order[1..], jobs[order[0] := pr.1], budget - |pr.0|, order[0]);
  }

  /** A drain only shortens stacks, from the top, and leaves the stacks of
      buckets outside the iteration order alone. */
  lemma {:induction false} DrainLeaves(order: seq<BucketName>, jobs: Stacks, budget: nat, k: BucketName)
    requires forall k :: k in order ==> k in jobs
    requires k in jobs
    ensures Drain(order, jobs, budget).1[k] <= jobs[k]
    ensures k !in order ==> Drain(order, jobs, budget).1[k] == jobs[k]
    decreases order
  {
    if order != [] && budget != 0 {
      var b := order[0];
      var pr := PopUpTo(jobs[b], budget);
      DrainUnfold(order, jobs, budget);
      PopUpToSplit(jobs[b], budget);
      DrainLeaves(order[1..], jobs[b := pr.1], budget - |pr.0|, k);
      assert k !in order ==> k !in order[1..];
    }
  }

  /** Every drained job belongs to a bucket of the iteration order. */
  lemma {:induction false} DrainBuckets(order: seq<BucketName>, jobs: Stacks, budget: nat)
    requires forall k :: k in order ==> k in jobs
    ensures forall i :: 0 <= i < |Drain(order, jobs, budget).0| ==> Drain(order, jobs, budget).0[i].bucket in order
    decreases order
  {
    if order != [] && budget != 0 {
      var b := order[0];
      var pr := PopUpTo(jobs[b], budget);
      var more := Drain(order[1..], jobs[b := pr.1], budget - |pr.0|).0;
      DrainUnfold(order, jobs, budget);
      DrainBuckets(order[1..], jobs[b := pr.1], budget - |pr.0|);
      var batch := Drain(order, jobs, budget).0;
      forall i | 0 <= i < |batch| ensures batch[i].bucket in order {
        if i >= |pr.0| {
          assert batch[i] == more[i - |pr.0|];
          assert more[i - |pr.0|].bucket in order[1..];
        }
      }
    }
  }

  /** A round takes as many jobs as the budget allows, and all of them when
      fewer are pending. */
  lemma {:induction false} DrainSize(order: seq<BucketName>, jobs: Stacks, budget: nat)
    requires NoDup(order)
    requires forall k :: k in order ==> k in jobs
    ensures |Drain(order, jobs, budget).0| == Min(budget, |PendingJobs(order, jobs)|)
    decreases order
  {
    if order != [] && budget != 0 {
      var b := order[0];
      var pr := PopUpTo(jobs[b], budget);
      HeadNotInTail(order);
      DrainUnfold(order, jobs, budget);
      DrainSize(order[1..], jobs[b := pr.1], budget - |pr.0|);
      PendingIgnores(order[1..], jobs, b, pr.1);
      PendingUnfold(order, jobs);
    }
  }

  /** When the first bucket is left non-empty, no other bucket is touched. */
  lemma DrainStopsAtFirst(order: seq<BucketName>, jobs: Stacks, budget: nat)
    requires NoDup(order) && order != []
    requires forall k :: k in order ==> k in jobs
    requires Drain(order, jobs, budget).1[order[0]] != []
    ensures forall k :: k in jobs && k != order[0] ==> Drain(order, jobs, budget).1[k] == jobs[k]
  {
    if budget != 0 {
      var pr := PopUpTo(jobs[order[0]], budget);
      HeadNotInTail(order);
      DrainUnfold(order, jobs, budget);
      DrainKeepsHead(order, jobs, budget);
      PopUpToSplit(jobs[order[0]], budget);
      assert |pr.0| == budget;
    }
  }

  /** The drain moves on to a later bucket only once every earlier bucket
      is empty: a bucket left non-empty is followed by untouched ones. */
  lemma {:induction false} DrainInOrder(order: seq<BucketName>, jobs: Stacks, budget: nat)
    requires NoDup(order)
    requires forall k :: k in order ==> k in jobs
    ensures var left := Drain(order, jobs, budget).1;
      forall i, j :: 0 <= i < j < |order| && left[order[i]] != [] ==> left[order[j]] == jobs[order[j]]
    decreases order
  {
    if order != [] && budget != 0 {
      var b := order[0];
      var pr := PopUpTo(jobs[b], budget);
      HeadNotInTail(order);
      DrainUnfold(order, jobs, budget);
      var tail := order[1..];
      var jobs1 := jobs[b := pr.1];
      var left := Drain(order, jobs, budget).1;
      DrainInOrder(tail, jobs1, budget - |pr.0|);
      if left[b] != [] {
        DrainStopsAtFirst(order, jobs, budget);
      }
      forall i, j | 0 <= i < j < |order| && left[order[i]] != []
        ensures left[order[j]] == jobs[order[j]]
      {
        assert order[j] == tail[j - 1];
        if i != 0 {
          assert order[i] == tail[i - 1];
        }
      }
    }
  }

  /** The prefixes of the jobs for bucket `k`, in batch order. */
  function Picked(k: BucketName, batch: seq<Job>): seq<Prefix>
  {
    if batch == [] then []
    else (if batch[0].bucket == k then [batch[0].prefix] else []) + Picked(k, batch[1..])
  }

  lemma {:induction false} PickedConcat(k: BucketName, xs: seq<Job>, ys: seq<Job>)
    ensures Picked(k, xs + ys) == Picked(k, xs) + Picked(k, ys)
    decreases |xs|
  {
    if xs == [] {
      assert xs + ys == ys;
    } else {
      var xys := xs + ys;
      assert xys[0] == xs[0];
      assert xys[1..] == xs[1..] + ys;
      PickedConcat(k, xs[1..], ys);
      var head := if xs[0].bucket == k then [xs[0].prefix] else [];
      assert Picked(k, xys) == head + Picked(k, xys[1..]);
      assert Picked(k, xs) == head + Picked(k, xs[1..]);
    }
  }

  lemma {:induction false} PickedTag(k: BucketName, b: BucketName, ps: seq<Prefix>)
    ensures Picked(k, Tag(b, ps)) == if k == b then ps else []
    decreases |ps|
  {
    if ps != [] {
      PickedTag(k, b, ps[1..]);
      assert Tag(b, ps)[1..] == Tag(b, ps[1..]);
    }
  }

  lemma {:induction false} PickedNone(k: BucketName, batch: seq<Job>)
    requires forall i :: 0 <= i < |batch| ==> batch[i].bucket != k
    ensures Picked(k, batch) == []
    decreases |batch|
  {
    if batch != [] {
      PickedNone(k, batch[1..]);
    }
  }

  /** Each bucket's stack before the drain is what the drain left of it
      followed by its share of the batch in reverse: the drain took that
      bucket's jobs off the top of its stack, top first. */
  lemma {:induction false} DrainLifo(order: seq<BucketName>, jobs: Stacks, budget: nat, k: BucketName)
    requires NoDup(order)
    requires forall k :: k in order ==> k in jobs
    requires k in jobs
    ensures jobs[k] == Drain(order, jobs, budget).1[k] + Reverse(Picked(k, Drain(order, jobs, budget).0))
    decreases order
  {
    if order == [] || budget == 0 {
      var none: seq<Job> := [];
      assert Drain(order, jobs, budget) == (none, jobs);
      assert Reverse(Picked(k, none)) == [];
      assert jobs[k] == jobs[k] + [];
    } else if k == order[0] {
      DrainLifoHead(order, jobs, budget);
    } else {
      var b := order[0];
      var pr := PopUpTo(jobs[b], budget);
      var jobs1 := jobs[b := pr.1];
      var d := Drain(order[1..], jobs1, budget - |pr.0|);
      var r := Drain(order, jobs, budget);
      HeadNotInTail(order);
      DrainUnfold(order, jobs, budget);
      assert r.0 == Tag(b, pr.0) + d.0 && r.1 == d.1;
      PickedConcat(k, Tag(b, pr.0), d.0);
      PickedTag(k, b, pr.0);
      DrainLifo(order[1..], jobs1, budget - |pr.0|, k);
      assert Picked(k, r.0) == Picked(k, d.0);
      assert jobs1[k] == jobs[k];
    }
  }

  /** The first bucket's share of the batch is what was popped off it. */
  lemma DrainLifoHead(order: seq<BucketName>, jobs: Stacks, budget: nat)
    requires NoDup(order)
    requires forall k :: k in order ==> k in jobs
    requires order != [] && budget != 0
    ensures jobs[order[0]] == Drain(order, jobs, budget).1[order[0]] + Reverse(Picked(order[0], Drain(order, jobs, budget).0))
  {
    var b := order[0];
    var pr := PopUpTo(jobs[b], budget);
    var jobs1 := jobs[b := pr.1];
    var d := Drain(order[1..], jobs1, budget - |pr.0|);
    var r := Drain(order, jobs, budget);
    HeadNotInTail(order);
    DrainUnfold(order, jobs, budget);
    assert r.0 == Tag(b, pr.0) + d.0 && r.1 == d.1;
    PickedConcat(b, Tag(b, pr.0), d.0);
    PickedTag(b, b, pr.0);
    DrainBuckets(order[1..], jobs1, budget - |pr.0|);
    PickedNone(b, d.0);
    DrainKeepsHead(order, jobs, budget);
    PopUpToSplit(jobs[b], budget);
    assert Picked(b, r.0) == pr.0;
  }

  /** Draining neither loses nor invents work: the batch and the stacks
      left behind hold exactly the jobs that were pending. */
  lemma {:induction false} DrainConserves(order: seq<BucketName>, jobs: Stacks, budget: nat)
    requires NoDup(order)
    requires forall k :: k in order ==> k in jobs
    ensures multiset(Drain(order, jobs, budget).0) + multiset(PendingJobs(order, Drain(order, jobs, budget).1))
            == multiset(PendingJobs(order, jobs))
    decreases order
  {
    if order != [] && budget != 0 {
      var b := order[0];
      var pr := PopUpTo(jobs[b], budget);
      var popped, rest := pr.0, pr.1;
      var tail := order[1..];
      HeadNotInTail(order);
      var jobs1 := jobs[b := rest];
      var budget1: nat := budget - |popped|;
      var r := Drain(tail, jobs1, budget1);
      var more, left := r.0, r.1;
      DrainUnfold(order, jobs, budget);
      DrainKeepsHead(order, jobs, budget);
      DrainConserves(tail, jobs1, budget1);
      PendingIgnores(tail, jobs, b, rest);
      PendingUnfold(order, left);
      PendingUnfold(order, jobs);
      PopTagConserves(b, jobs[b], budget);
      Regroup(Tag(b, popped), Tag(b, rest), more, PendingJobs(tail, left), PendingJobs(tail, jobs), Tag(b, jobs[b]));
    }
  }

  /** The jobs of the popped prefixes and of the prefixes left behind make
      up the jobs of the whole stack. */
  lemma PopTagConserves(b: BucketName, stack: seq<Prefix>, budget: nat)
    ensures multiset(Tag(b, PopUpTo(stack, budget).0)) + multiset(Tag(b, PopUpTo(stack, budget).1))
            == multiset(Tag(b, stack))
  {
    var popped, rest := PopUpTo(stack, budget).0, PopUpTo(stack, budget).1;
    PopUpToConserves(stack, budget);
    TagConcat(b, popped, rest);
    TagPermutation(b, popped + rest, stack);
  }

  lemma Regroup(popped: seq<Job>, rest: seq<Job>, more: seq<Job>, left: seq<Job>, before: seq<Job>, stack: seq<Job>)
    requires multiset(more) + multiset(left) == multiset(before)
    requires multiset(popped) + multiset(rest) == multiset(stack)
    ensures multiset(popped + more) + multiset(rest + left) == multiset(stack + before)
  {
  }

  /** The listed names without duplicates, first occurrence kept; taken
      as the key order of `_jobs`. */
  function Dedup(s: seq<BucketName>): (r: seq<BucketName>)
    ensures NoDup(r)
    ensures forall x :: x in r <==> x in s
    ensures |r| <= |s|
  {
    if s == [] then []
    else
      var d := Dedup(s[..|s| - 1]);
      assert s == s[..|s| - 1] + [s[|s| - 1]];
      if s[|s| - 1] in d then d else d + [s[|s| - 1]]
  }

  /** `_before_start`: with no bucket name every enumerated bucket gets a
      root job; a named bucket gets one only if it exists. */
  function Seed(pv: Provider, target: Option<BucketName>): (r: (seq<BucketName>, Stacks))
    ensures NoDup(r.0)
    ensures forall k :: k in r.0 <==> k in r.1
    ensures forall k :: k in r.1 ==> r.1[k] == [Root]
    ensures target.None? ==> forall k :: k in r.1 <==> k in pv.buckets
    ensures target.Some? && pv.hasBucket(target.value) ==> r.1.Keys == {target.value}
    ensures target.Some? && !pv.hasBucket(target.value) ==> r.1 == map[]
  {
    match target
    case None =>
      var names := Dedup(pv.buckets);
      (names, map k | k in names :: [Root])
    case Some(b) =>
      if pv.hasBucket(b) then ([b], map[b := [Root]]) else ([], map[])
  }
}
