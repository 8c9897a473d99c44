/** Training rows of the GRPO scheduler, their buckets, and what it means to interleave queues of them. */
module GrpoRows {

  datatype Bucket = HighMeanLowStd | LowMeanLowStd | HighMeanHighStd | LowMeanHighStd

  const BUCKET_ORDER: seq<Bucket> := [HighMeanLowStd, LowMeanLowStd, HighMeanHighStd, LowMeanHighStd]

  /** Domains are named by their place in alphabetical order. */
  type Domain = int

  predicate Distinct(names: seq<Domain>) {
    forall i, j :: 0 <= i < j < |names| ==> names[i] != names[j]
  }

  datatype Row = Row(id: int, category: Domain, rewardMean: real, rewardStd: real, bucket: Bucket)

  /** The rows of one bucket, in order. */
  function OfBucket(rows: seq<Row>, b: Bucket): seq<Row> {
    if rows == [] then []
    else if rows[0].bucket == b then [rows[0]] + OfBucket(rows[1..], b)
    else OfBucket(rows[1..], b)
  }

  /** The rows of one domain, in order. */
  function OfDomain(rows: seq<Row>, d: Domain): seq<Row> {
    if rows == [] then []
    else if rows[0].category == d then [rows[0]] + OfDomain(rows[1..], d)
    else OfDomain(rows[1..], d)
  }

  lemma {:induction false} OfBucketAppend(a: seq<Row>, c: seq<Row>, b: Bucket)
    ensures OfBucket(a + c, b) == OfBucket(a, b) + OfBucket(c, b)
  {
    if a == [] {
      assert a + c == c;
    } else {
      OfBucketAppend(a[1..], c, b);
      assert (a + c)[1..] == a[1..] + c && (a + c)[0] == a[0];
    }
  }

  lemma {:induction false} OfDomainAppend(a: seq<Row>, c: seq<Row>, d: Domain)
    ensures OfDomain(a + c, d) == OfDomain(a, d) + OfDomain(c, d)
  {
    if a == [] {
      assert a + c == c;
    } else {
      OfDomainAppend(a[1..], c, d);
      assert (a + c)[1..] == a[1..] + c && (a + c)[0] == a[0];
    }
  }

  lemma {:induction false} OfBucketAll(rows: seq<Row>, b: Bucket, c: Bucket)
    requires forall r :: r in rows ==> r.bucket == b
    ensures OfBucket(rows, c) == if b == c then rows else []
  {
    if rows != [] {
      OfBucketAll(rows[1..], b, c);
    }
  }

  lemma {:induction false} OfDomainAll(rows: seq<Row>, d: Domain, e: Domain)
    requires forall r :: r in rows ==> r.category == d
    ensures OfDomain(rows, e) == if d == e then rows else []
  {
    if rows != [] {
      OfDomainAll(rows[1..], d, e);
    }
  }

  lemma {:induction false} OfBucketCount(rows: seq<Row>, x: Row)
    ensures multiset(rows)[x] == multiset(OfBucket(rows, x.bucket))[x]
  {
    if rows != [] {
      OfBucketCount(rows[1..], x);
      assert rows == [rows[0]] + rows[1..];
    }
  }

  lemma {:induction false} OfDomainCount(rows: seq<Row>, x: Row)
    ensures multiset(rows)[x] == multiset(OfDomain(rows, x.category))[x]
  {
    if rows != [] {
      OfDomainCount(rows[1..], x);
      assert rows == [rows[0]] + rows[1..];
    }
  }

  lemma {:induction false} OfBucketMembers(rows: seq<Row>, b: Bucket)
    ensures forall r :: r in OfBucket(rows, b) ==> r.bucket == b && r in rows
  {
    if rows != [] {
      OfBucketMembers(rows[1..], b);
    }
  }

  lemma {:induction false} OfDomainMembers(rows: seq<Row>, d: Domain)
    ensures forall r :: r in OfDomain(rows, d) ==> r.category == d && r in rows
  {
    if rows != [] {
      OfDomainMembers(rows[1..], d);
    }
  }

  /** Two lists with the same rows bucket by bucket, in any order, are permutations. */
  lemma SameBucketsPermute(a: seq<Row>, c: seq<Row>)
    requires forall b :: multiset(OfBucket(a, b)) == multiset(OfBucket(c, b))
    ensures multiset(a) == multiset(c)
  {
    forall x
      ensures multiset(a)[x] == multiset(c)[x]
    {
      OfBucketCount(a, x);
      OfBucketCount(c, x);
    }
  }

  function IndexOf(order: seq<Domain>, d: Domain): (k: nat)
    ensures k <= |order| && (k < |order| <==> d in order)
    ensures k < |order| ==> order[k] == d
    ensures forall i :: 0 <= i < k ==> order[i] != d
  {
    if order == [] || order[0] == d then 0 else 1 + IndexOf(order[1..], d)
  }

  /** Queues per domain: each holds rows of its own domain. */
  ghost predicate QueuesOk(queues: map<Domain, seq<Row>>) {
    forall d, r :: d in queues && r in queues[d] ==> r.category == d
  }

  /** `rows` interleaves the queues: it has no other rows, and each queue's in its own order. */
  ghost predicate Interleaves(rows: seq<Row>, queues: map<Domain, seq<Row>>) {
    && (forall r :: r in rows ==> r.category in queues)
    && (forall d :: d in queues ==> OfDomain(rows, d) == queues[d])
  }
}
