/** The bucket queue of the ordered collapse: an array of 64 ring buffers that
    double when they are full, each proved against the sequence of tasks it holds,
    oldest first. */
module BucketQueues {
  import opened BranchTrees

  const BUCKETS: nat := 64

  /** (head + i) % cap without wrapping more than once. */
  lemma RingIndex(head: nat, i: nat, cap: nat)
    requires head < cap && i <= cap
    ensures (head + i) % cap == if head + i < cap then head + i else head + i - cap
  {
    if head + i < cap {
    } else {
      RingWrap(head + i - cap, cap);
    }
  }

  lemma RingWrap(k: nat, cap: nat)
    requires k < cap
    ensures (k + cap) % cap == k
  {
  }

  class Bucket {
    var tasks: array<Branch>
    var head: nat
    var count: nat

    constructor ()
      ensures Valid() && Contents() == [] && fresh(tasks)
    {
      tasks := new Branch[0];
      head, count := 0, 0;
    }

    ghost predicate Valid()
      reads this, tasks
    {
      count <= tasks.Length && (tasks.Length > 0 ==> head < tasks.Length)
    }

    ghost function Contents(): (s: seq<Branch>)
      reads this, tasks
      requires Valid()
      ensures |s| == count
    {
      seq(count, i requires 0 <= i < count && Valid() reads this, tasks => tasks[(head + i) % tasks.Length])
    }

    /** Double a full buffer, unrolling it so that it starts at zero. */
    method Grow()
      requires Valid() && count == tasks.Length
      modifies this
      ensures Valid() && Contents() == old(Contents()) && fresh(tasks) && count < tasks.Length
    {
      var cap := if tasks.Length == 0 then 16 else tasks.Length * 2;
      var bigger := new Branch[cap];
      for i := 0 to count
        invariant Valid() && forall j :: 0 <= j < i ==> bigger[j] == Contents()[j]
        modifies bigger
      {
        bigger[i] := tasks[(head + i) % tasks.Length];
      }
      ghost var was := Contents();
      tasks, head := bigger, 0;
      forall i | 0 <= i < count ensures Contents()[i] == was[i] {
        RingIndex(0, i, cap);
      }
    }

    /** Store t at the tail; there is room. */
    method Append(t: Branch)
      requires Valid() && count < tasks.Length
      modifies this`count, tasks
      ensures Valid() && Contents() == old(Contents()) + [t]
    {
      ghost var was := Contents();
      var tail := (head + count) % tasks.Length;
      RingIndex(head, count, tasks.Length);
      forall i | 0 <= i < count
        ensures (head + i) % tasks.Length != tail && tasks[(head + i) % tasks.Length] == was[i]
      {
        RingIndex(head, i, tasks.Length);
      }
      tasks[tail] := t;
      count := count + 1;
      assert Contents()[..count - 1] == was;
    }

    method Push(t: Branch)
      requires Valid()
      modifies this, tasks
      ensures Valid() && Contents() == old(Contents()) + [t]
      ensures tasks == old(tasks) || fresh(tasks)
    {
      if count >= tasks.Length {
        Grow();
      }
      Append(t);
    }

    method Pop() returns (t: Branch)
      requires Valid() && count > 0
      modifies this
      ensures Valid() && tasks == old(tasks)
      ensures [t] + Contents() == old(Contents())
    {
      ghost var was := Contents();
      t := tasks[head];
      RingIndex(head, 0, tasks.Length);
      forall i | 1 <= i < count ensures was[i] == tasks[((head + 1) % tasks.Length + (i - 1)) % tasks.Length] {
        RingIndex(head, i, tasks.Length);
        RingIndex(head, 1, tasks.Length);
        RingIndex((head + 1) % tasks.Length, i - 1, tasks.Length);
      }
      head := (head + 1) % tasks.Length;
      count := count - 1;
    }
  }

  ghost predicate AllEmpty(bs: seq<Bucket>)
    reads bs, set b | b in bs :: b.tasks
  {
    forall i :: 0 <= i < |bs| ==> bs[i].Valid() && bs[i].Contents() == []
  }

  ghost predicate AllDistinct(bs: seq<Bucket>)
    reads bs
  {
    forall i, j :: 0 <= i < j < |bs| ==> bs[i] != bs[j] && bs[i].tasks != bs[j].tasks
  }

  method EmptyBuckets() returns (bs: seq<Bucket>, ghost parts: set<object>)
    ensures |bs| == BUCKETS && AllEmpty(bs) && AllDistinct(bs) && fresh(parts)
    ensures forall i :: 0 <= i < |bs| ==> bs[i] in parts && bs[i].tasks in parts
  {
    bs, parts := [], {};
    while |bs| < BUCKETS
      invariant |bs| <= BUCKETS && AllEmpty(bs) && AllDistinct(bs) && fresh(parts)
      invariant forall i :: 0 <= i < |bs| ==> bs[i] in parts && bs[i].tasks in parts
    {
      var b := new Bucket();
      bs := bs + [b];
      parts := parts + {b, b.tasks};
    }
  }

  /** An array of buckets. `contents` is what they hold, and `repr` the objects
      they are made of. */
  class BucketQueue {
    const buckets: seq<Bucket>
    ghost var contents: seq<seq<Branch>>
    ghost var repr: set<object>

    ghost predicate Valid()
      reads this, repr
    {
      |buckets| == |contents| == BUCKETS && this in repr &&
      (forall i :: 0 <= i < BUCKETS ==>
         buckets[i] in repr && buckets[i].tasks in repr && buckets[i].Valid() &&
         buckets[i].Contents() == contents[i]) &&
      AllDistinct(buckets)
    }

    constructor ()
      ensures Valid() && fresh(repr) && forall i :: 0 <= i < BUCKETS ==> contents[i] == []
    {
      ghost var parts;
      var bs;
      bs, parts := EmptyBuckets();
      buckets := bs;
      contents := seq(BUCKETS, _ => []);
      new;
      repr := {this} + parts;
    }

    /** Append t to bucket k. */
    method PushAt(k: nat, t: Branch)
      requires Valid() && k < BUCKETS
      modifies repr
      ensures Valid() && fresh(repr - old(repr))
      ensures contents == old(contents)[k := old(contents)[k] + [t]]
    {
      buckets[k].Push(t);
      assert buckets[k].Contents() == contents[k] + [t];
      contents := contents[k := contents[k] + [t]];
      repr := repr + {buckets[k].tasks};
      forall i | 0 <= i < BUCKETS && i != k ensures buckets[i].Valid() && buckets[i].Contents() == contents[i] {
        assert buckets[i] != buckets[k];
      }
    }

    /** The lowest bucket that is not empty, or none. */
    method Lowest() returns (best: int)
      requires Valid()
      ensures -1 <= best < BUCKETS
      ensures best == -1 ==> forall i :: 0 <= i < BUCKETS ==> contents[i] == []
      ensures best >= 0 ==> contents[best] != [] && forall i :: 0 <= i < best ==> contents[i] == []
    {
      for i := 0 to BUCKETS
        invariant forall j :: 0 <= j < i ==> contents[j] == []
      {
        assert |buckets[i].Contents()| == |contents[i]|;
        if buckets[i].count > 0 {
          return i;
        }
      }
      return -1;
    }

    /** Take the oldest task of bucket k. */
    method PopAt(k: nat) returns (t: Branch)
      requires Valid() && k < BUCKETS && contents[k] != []
      modifies repr
      ensures Valid() && repr == old(repr)
      ensures t == old(contents)[k][0] && contents == old(contents)[k := old(contents)[k][1..]]
    {
      assert |buckets[k].Contents()| == |contents[k]|;
      t := buckets[k].Pop();
      assert buckets[k].Contents() == contents[k][1..];
      contents := contents[k := contents[k][1..]];
      forall i | 0 <= i < BUCKETS && i != k ensures buckets[i].Valid() && buckets[i].Contents() == contents[i] {
        assert buckets[i] != buckets[k];
      }
    }
  }
}
