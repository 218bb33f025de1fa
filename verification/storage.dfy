/** The storage provider as the traversal sees it: one delimiter-level
    listing per (bucket, prefix), the shaping of a listing into the
    arguments of `_after_fetch`, and the tree of listings reachable from
    a prefix, with the byte, object and listing totals of that tree. */
module Storage {
  import opened Base

  type BucketName = string

  /** A listing position. `Root` is the source's `None` sentinel (list a
      bucket from the top); `Dir(path)` is a common prefix such as "a/b/". */
  datatype Prefix = Root | Dir(path: string)

  function Depth(p: Prefix): nat
  {
    match p
    case Root => 0
    case Dir(path) => |path|
  }

  /** One element of a delimiter listing: an object key with its size, or
      a common prefix one level further down. */
  datatype Entry = Key(size: nat) | CommonPrefix(name: string)

  /** The outcome of one listing request: its entries, or a failure
      (forbidden resource, network error) that the fetch swallows. */
  datatype Response = Listed(entries: seq<Entry>) | ListFailed

  /** An abstract provider: the buckets `list_buckets`/`get_all_buckets`
      returns, the existence check for a named bucket, what one listing of
      a prefix holds, which listings fail, the longest key length, and
      whether `_before_start` raises for a given bucket name (a client
      connection, the bucket enumeration or the lookup of the named
      bucket fails). */
  datatype Provider = Provider(
    buckets: seq<BucketName>,
    hasBucket: BucketName -> bool,
    content: (BucketName, Prefix) -> seq<Entry>,
    fails: (BucketName, Prefix) -> bool,
    maxKeyLength: nat,
    setupFails: Option<BucketName> -> bool)

  function Respond(pv: Provider, b: BucketName, p: Prefix): Response
  {
    if pv.fails(b, p) then ListFailed else Listed(pv.content(b, p))
  }

  /** A finite namespace: every common prefix listed under `p` is strictly
      longer than `p` and no longer than the longest key. */
  ghost predicate WellFormed(pv: Provider)
  {
    forall b, p, c :: CommonPrefix(c) in pv.content(b, p) ==> Depth(p) < |c| <= pv.maxKeyLength
  }

  /** No listing of the provider fails. */
  ghost predicate NoFailures(pv: Provider)
  {
    forall b, p :: !pv.fails(b, p)
  }

  /** One unit of dispatched work: list `prefix` in `bucket`. */
  datatype Job = Job(bucket: BucketName, prefix: Prefix)

  /** The arguments of one `_after_fetch(bucket_name, prefixes, fetched_data)` call. */
  datatype Reply = Reply(bucket: BucketName, prefixes: seq<Prefix>, sizes: seq<nat>)

  function Tag(b: BucketName, ps: seq<Prefix>): (js: seq<Job>)
    ensures |js| == |ps|
    ensures forall i :: 0 <= i < |ps| ==> js[i] == Job(b, ps[i])
  {
    if ps == [] then [] else [Job(b, ps[0])] + Tag(b, ps[1..])
  }

  lemma {:induction false} TagConcat(b: BucketName, xs: seq<Prefix>, ys: seq<Prefix>)
    ensures Tag(b, xs + ys) == Tag(b, xs) + Tag(b, ys)
  {
  }

  /** How often a job occurs among the jobs of one bucket's prefixes. */
  lemma {:induction false} TagCount(b: BucketName, ps: seq<Prefix>, j: Job)
    ensures multiset(Tag(b, ps))[j] == if j.bucket == b then multiset(ps)[j.prefix] else 0
    decreases |ps|
  {
    if ps != [] {
      TagCount(b, ps[1..], j);
      assert ps == [ps[0]] + ps[1..];
      assert Tag(b, ps) == [Job(b, ps[0])] + Tag(b, ps[1..]);
    }
  }

  lemma TagPermutation(b: BucketName, xs: seq<Prefix>, ys: seq<Prefix>)
    requires multiset(xs) == multiset(ys)
    ensures multiset(Tag(b, xs)) == multiset(Tag(b, ys))
  {
    forall j | true
      ensures multiset(Tag(b, xs))[j] == multiset(Tag(b, ys))[j]
    {
      TagCount(b, xs, j);
      TagCount(b, ys, j);
    }
  }

  /** The jobs a reply discovers: its sub-prefixes, in its own bucket. */
  function Children(r: Reply): seq<Job>
  {
    Tag(r.bucket, r.prefixes)
  }

  /** Splits a listing into object sizes and sub-prefixes, keeping listing order. */
  function Split(es: seq<Entry>): (r: (seq<nat>, seq<Prefix>))
    ensures |r.0| + |r.1| == |es|
  {
    if es == [] then ([], [])
    else
      var rest := Split(es[1..]);
      match es[0]
      case Key(n) => ([n] + rest.0, rest.1)
      case CommonPrefix(c) => (rest.0, [Dir(c)] + rest.1)
  }

  /** A size is reported iff a key of that size was listed, and a prefix
      iff it was listed as a common prefix. */
  lemma {:induction false} SplitMembers(es: seq<Entry>)
    ensures forall n :: n in Split(es).0 <==> Key(n) in es
    ensures forall q :: q in Split(es).1 <==> q.Dir? && CommonPrefix(q.path) in es
    decreases |es|
  {
    if es != [] {
      SplitMembers(es[1..]);
      assert es == [es[0]] + es[1..];
    }
  }

  /** Every key of the listing gives one size, with its multiplicity. */
  lemma {:induction false} SplitSizeCounts(es: seq<Entry>)
    ensures forall n :: multiset(Split(es).0)[n] == multiset(es)[Key(n)]
    decreases |es|
  {
    if es != [] {
      SplitSizeCounts(es[1..]);
      assert multiset(es) == multiset{es[0]} + multiset(es[1..]) by {
        assert es == [es[0]] + es[1..];
      }
      var rest := Split(es[1..]).0;
      match es[0]
      case Key(k) =>
        assert multiset(Split(es).0) == multiset{k} + multiset(rest) by {
          assert Split(es).0 == [k] + rest;
        }
      case CommonPrefix(c) =>
        assert Split(es).0 == rest;
    }
  }

  /** Every common prefix of the listing gives one sub-prefix, with its
      multiplicity, and the root never comes back as a sub-prefix. */
  lemma {:induction false} SplitPrefixCounts(es: seq<Entry>)
    ensures forall c :: multiset(Split(es).1)[Dir(c)] == multiset(es)[CommonPrefix(c)]
    ensures Root !in Split(es).1
    decreases |es|
  {
    if es != [] {
      SplitPrefixCounts(es[1..]);
      assert multiset(es) == multiset{es[0]} + multiset(es[1..]) by {
        assert es == [es[0]] + es[1..];
      }
      var rest := Split(es[1..]).1;
      match es[0]
      case Key(k) =>
        assert Split(es).1 == rest;
      case CommonPrefix(d) =>
        assert Split(es).1 == [Dir(d)] + rest;
        assert multiset(Split(es).1) == multiset{Dir(d)} + multiset(rest);
    }
  }

  /** The bytes one entry of a listing stands for. */
  function EntryBytes(e: Entry): nat
  {
    match e
    case Key(n) => n
    case CommonPrefix(_) => 0
  }

  /** The sizes a listing reports add up to the bytes of its keys. */
  lemma {:induction false} SplitBytes(es: seq<Entry>)
    ensures Sum(Split(es).0) == SumOver(EntryBytes, es)
    decreases |es|
  {
    if es != [] {
      SplitBytes(es[1..]);
      var rest := Split(es[1..]);
      match es[0]
      case Key(n) =>
        var sizes := [n] + rest.0;
        assert Split(es).0 == sizes;
        assert sizes[0] == n && sizes[1..] == rest.0;
      case CommonPrefix(c) =>
        assert Split(es).0 == rest.0;
    }
  }

  /** Splitting keeps listing order: the sizes and prefixes of two
      consecutive pages are those of the first page followed by those of
      the second. */
  lemma {:induction false} SplitConcat(a: seq<Entry>, b: seq<Entry>)
    ensures Split(a + b).0 == Split(a).0 + Split(b).0
    ensures Split(a + b).1 == Split(a).1 + Split(b).1
    decreases |a|
  {
    if a == [] {
      assert a + b == b;
    } else {
      var ab := a + b;
      assert ab[0] == a[0];
      assert ab[1..] == a[1..] + b;
      SplitConcat(a[1..], b);
      var rest, tail := Split(ab[1..]), Split(a[1..]);
      match a[0]
      case Key(n) =>
        assert Split(ab) == ([n] + rest.0, rest.1);
        assert Split(a) == ([n] + tail.0, tail.1);
      case CommonPrefix(c) =>
        assert Split(ab) == (rest.0, [Dir(c)] + rest.1);
        assert Split(a) == (tail.0, [Dir(c)] + tail.1);
    }
  }

  /** The result shaping of the S3 fetch: key sizes and prefix names from
      a listing, or nothing at all when the listing failed. */
  function Shape(b: BucketName, resp: Response): (r: Reply)
    ensures r.bucket == b
    ensures resp.ListFailed? ==> r.prefixes == [] && r.sizes == []
    ensures resp.Listed? ==> |r.sizes| + |r.prefixes| == |resp.entries|
    ensures resp.Listed? ==> forall n :: n in r.sizes <==> Key(n) in resp.entries
    ensures resp.Listed? ==>
      forall q :: q in r.prefixes <==> q.Dir? && CommonPrefix(q.path) in resp.entries
    ensures resp.Listed? ==> forall n :: multiset(r.sizes)[n] == multiset(resp.entries)[Key(n)]
    ensures resp.Listed? ==>
      forall c :: multiset(r.prefixes)[Dir(c)] == multiset(resp.entries)[CommonPrefix(c)]
    ensures Root !in r.prefixes
  {
    match resp
    case ListFailed => Reply(b, [], [])
    case Listed(es) =>
      SplitMembers(es);
      SplitSizeCounts(es);
      SplitPrefixCounts(es);
      Reply(b, Split(es).1, Split(es).0)
  }

  /** What one worker hands to the merge step for `j`. */
  function Fetch(pv: Provider, j: Job): Reply
  {
    Shape(j.bucket, Respond(pv, j.bucket, j.prefix))
  }

  function Unfold(pv: Provider, j: Job): seq<Job>
  {
    Children(Fetch(pv, j))
  }

  function BytesOf(r: Reply): nat
  {
    Sum(r.sizes)
  }

  function CountOf(r: Reply): nat
  {
    |r.sizes|
  }

  /** Which total a listing tree is measured by. */
  datatype Measure = Bytes | Objects | Listings

  /** What one listing contributes to a measure. */
  function Local(pv: Provider, m: Measure, j: Job): nat
  {
    match m
    case Bytes => BytesOf(Fetch(pv, j))
    case Objects => CountOf(Fetch(pv, j))
    case Listings => 1
  }

  function Height(pv: Provider, d: nat): nat
  {
    if d <= pv.maxKeyLength then pv.maxKeyLength - d else 0
  }

  predicate Deeper(pv: Provider, d: nat, p: Prefix)
  {
    d < Depth(p) <= pv.maxKeyLength
  }

  /** The measure of every listing reachable from `j` through the replies
      the fetch produces (a failed listing discovers nothing below it). */
  ghost function Explore(pv: Provider, m: Measure, j: Job): nat
    decreases Height(pv, Depth(j.prefix)), 1
  {
    Local(pv, m, j) + ExploreAll(pv, m, Unfold(pv, j), Depth(j.prefix))
  }

  ghost function ExploreAll(pv: Provider, m: Measure, js: seq<Job>, d: nat): nat
    decreases Height(pv, d), 0, |js|
  {
    if js == [] then 0
    else
      (if Deeper(pv, d, js[0].prefix) then Explore(pv, m, js[0]) else 0)
      + ExploreAll(pv, m, js[1..], d)
  }

  ghost function TreeFn(pv: Provider, m: Measure): Job -> nat
  {
    j => Explore(pv, m, j)
  }

  ghost function LocalFn(pv: Provider, m: Measure): Job -> nat
  {
    j => Local(pv, m, j)
  }

  lemma {:induction false} ExploreAllIsSum(pv: Provider, m: Measure, js: seq<Job>, d: nat)
    requires forall i :: 0 <= i < |js| ==> Deeper(pv, d, js[i].prefix)
    ensures ExploreAll(pv, m, js, d) == SumOver(TreeFn(pv, m), js)
    decreases |js|
  {
    if js != [] {
      ExploreAllIsSum(pv, m, js[1..], d);
    }
  }

  /** In a finite namespace, a listing tree is its root listing plus the
      trees of every sub-prefix the root listing reports. */
  lemma ExploreUnfold(pv: Provider, m: Measure, j: Job)
    requires WellFormed(pv)
    ensures Explore(pv, m, j) == Local(pv, m, j) + SumOver(TreeFn(pv, m), Unfold(pv, j))
  {
    var r := Fetch(pv, j);
    var js := Unfold(pv, j);
    forall i | 0 <= i < |js|
      ensures Deeper(pv, Depth(j.prefix), js[i].prefix)
    {
      assert js[i].prefix in r.prefixes;
    }
    ExploreAllIsSum(pv, m, js, Depth(j.prefix));
  }

  /** The size of every object reachable from `p` in `b`, in listing order
      and depth first, read from the provider's content. */
  ghost function Stored(pv: Provider, b: BucketName, p: Prefix): seq<nat>
    decreases Height(pv, Depth(p)), 1
  {
    StoredIn(pv, b, pv.content(b, p), Depth(p))
  }

  ghost function StoredIn(pv: Provider, b: BucketName, es: seq<Entry>, d: nat): seq<nat>
    decreases Height(pv, d), 0, |es|
  {
    if es == [] then []
    else
      (match es[0]
       case Key(n) => [n]
       case CommonPrefix(c) => if Deeper(pv, d, Dir(c)) then Stored(pv, b, Dir(c)) else [])
      + StoredIn(pv, b, es[1..], d)
  }

  /** With no failing listing, the byte and object measures of a listing
      tree are the sum and the number of the objects stored below it. */
  lemma {:induction false} ExploreCountsObjects(pv: Provider, b: BucketName, p: Prefix)
    requires NoFailures(pv)
    ensures Explore(pv, Bytes, Job(b, p)) == Sum(Stored(pv, b, p))
    ensures Explore(pv, Objects, Job(b, p)) == |Stored(pv, b, p)|
    decreases Height(pv, Depth(p)), 1
  {
    var es := pv.content(b, p);
    assert !pv.fails(b, p);
    ExploreListed(pv, b, es, Depth(p));
  }

  lemma {:induction false} ExploreListed(pv: Provider, b: BucketName, es: seq<Entry>, d: nat)
    requires NoFailures(pv)
    ensures Sum(Split(es).0) + ExploreAll(pv, Bytes, Tag(b, Split(es).1), d)
            == Sum(StoredIn(pv, b, es, d))
    ensures |Split(es).0| + ExploreAll(pv, Objects, Tag(b, Split(es).1), d)
            == |StoredIn(pv, b, es, d)|
    decreases Height(pv, d), 0, |es|
  {
    if es != [] {
      var (ks, ps) := Split(es[1..]);
      var rest := StoredIn(pv, b, es[1..], d);
      ExploreListed(pv, b, es[1..], d);
      match es[0]
      case Key(n) => {
        SumConcat([n], ks);
        SumConcat([n], rest);
      }
      case CommonPrefix(c) => {
        assert Tag(b, [Dir(c)] + ps)[1..] == Tag(b, ps);
        var below := if Deeper(pv, d, Dir(c)) then Stored(pv, b, Dir(c)) else [];
        if Deeper(pv, d, Dir(c)) {
          ExploreCountsObjects(pv, b, Dir(c));
        }
        SumConcat(below, rest);
      }
    }
  }

  /** The sizes of every object stored below a list of jobs. */
  ghost function StoredUnder(pv: Provider, js: seq<Job>): seq<nat>
  {
    if js == [] then [] else Stored(pv, js[0].bucket, js[0].prefix) + StoredUnder(pv, js[1..])
  }

  lemma {:induction false} ExploreCountsStoredUnder(pv: Provider, js: seq<Job>)
    requires NoFailures(pv)
    ensures SumOver(TreeFn(pv, Bytes), js) == Sum(StoredUnder(pv, js))
    ensures SumOver(TreeFn(pv, Objects), js) == |StoredUnder(pv, js)|
    decreases |js|
  {
    if js != [] {
      ExploreCountsStoredUnder(pv, js[1..]);
      ExploreCountsObjects(pv, js[0].bucket, js[0].prefix);
      assert js[0] == Job(js[0].bucket, js[0].prefix);
      SumConcat(Stored(pv, js[0].bucket, js[0].prefix), StoredUnder(pv, js[1..]));
    }
  }
}
