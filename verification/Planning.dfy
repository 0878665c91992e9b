/** What a tick plans, in terms of the clock, the member view and the bucket list alone. */
module Planning {
  import opened Base
  import opened Text
  import opened Sched
  import opened Protocol

  /** Inventories every quarter of an hour, trash and statistics hourly, versions and multipart uploads every six hours. */
  function Minutes(kind: Kind): int {
    match kind
    case Inventory => 15
    case Trash => 60
    case Versions => 360
    case Multipart => 360
    case Stats => 60
  }

  /** The job's slot is the grid's that now falls in, and its claim lives to the slot's end, but not less than a second. */
  predicate IsTimed(job: Job, now: int) {
    var (start, length) := (job.key.slot, Minutes(job.key.kind) * 60_000_000_000);
    && start % length == 0 && start <= now < start + length
    && job.ttl == if start + length - now < 1_000_000_000 then 1_000_000_000 else start + length - now
  }

  /** With n members in view, the i-th sees to the ids that leave i on division by n, taken modulo 2^64. */
  predicate IsShare(id: int, view: seq<string>, me: string) {
    view == [] || exists i :: 0 <= i < |view| && view[i] == me && (id % TWO_TO_THE_64) % |view| == i
  }

  lemma MineIsShare(id: int, view: seq<string>, me: string)
    requires Ascending(view)
    ensures Mine(id, view, me) <==> IsShare(id, view, me)
  {
    forall i | 0 <= i < |view| && view[i] == me ensures Search(view, me, 0, |view|) == i {
      SearchFinds(view, i, 0, |view|);
    }
  }

  lemma JobIsTimed(kind: Kind, now: int, target: Target, job: Job)
    ensures job == JobFor(kind, now, target) <==> job.key.kind == kind && job.key.target == target && IsTimed(job, now)
  {
    var length := Minutes(kind) * 60_000_000_000;
    assert length == kind.Interval();
    SlotsTileTime(now, now, length);
    if job.key.kind == kind && IsTimed(job, now) {
      var start := job.key.slot;
      DivisionIsUnique(now, length, start / length, now - start);
      assert start == SlotStart(now, length);
    }
  }

  lemma {:induction false} BucketJobsAreShares(kind: Kind, now: int, view: seq<string>, me: string, items: seq<int>, job: Job)
    requires Ascending(view)
    ensures job in BucketJobs(kind, now, view, me, items) <==>
      && job.key.kind == kind && IsTimed(job, now)
      && job.key.target.BucketId? && job.key.target.id in items && IsShare(job.key.target.id, view, me)
  {
    if items != [] {
      BucketJobsAreShares(kind, now, view, me, items[1..], job);
      MineIsShare(items[0], view, me);
      JobIsTimed(kind, now, BucketId(items[0]), job);
      assert items == [items[0]] + items[1..];
    }
  }

  /** A tick plans, for its slots, the statistics and the four kinds of work on every listed bucket of the process's share. */
  lemma PlansAreShares(now: int, view: seq<string>, me: string, items: Option<seq<int>>, job: Job)
    requires Ascending(view)
    ensures job in Plan(now, view, me, items) <==>
      && IsTimed(job, now)
      && match job.key.target
         case All => job.key.kind == Stats
         case BucketId(b) => job.key.kind != Stats && items.Some? && b in items.value && IsShare(b, view, me)
  {
    JobIsTimed(Stats, now, All, job);
    if items.Some? {
      BucketJobsAreShares(Inventory, now, view, me, items.value, job);
      BucketJobsAreShares(Trash, now, view, me, items.value, job);
      BucketJobsAreShares(Versions, now, view, me, items.value, job);
      BucketJobsAreShares(Multipart, now, view, me, items.value, job);
    }
  }
}
