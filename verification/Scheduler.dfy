/**
 * The scheduler's own code, run as one process of the group: its loops take
 * exactly the protocol's steps, whatever the other processes and the stores do
 * between any two of them.
 */
module Scheduler {
  import opened Base
  import opened Sched
  import opened Protocol

  /** Nothing is assumed of the stores: every answer the code handles can come. */
  const NOTHING := Assumptions(false, false, false, Anytime)

  /** Anything but a step of p itself. */
  predicate Foreign(e: Event, p: Proc) {
    e.Drifts? || e.p != p
  }

  predicate SameTick(t: Tick, t': Tick) {
    t == t'.(clean := t.clean) && (t.clean ==> t'.clean)
  }

  /** The tick's next jobs are the given ones. */
  predicate Ahead(t: Tick, i: nat, jobs: seq<Job>) {
    i <= |t.jobs| && jobs <= t.jobs[i..]
  }

  lemma NextBucket(kind: Kind, now: int, view: seq<string>, me: string, items: seq<int>, c: nat, t: Tick, i: nat)
    requires c < |items| && Ahead(t, i, BucketJobs(kind, now, view, me, items[c..]))
    ensures var jobs := BucketJobs(kind, now, view, me, items[c..]);
      var rest := BucketJobs(kind, now, view, me, items[c + 1..]);
      if Mine(items[c], view, me) then
        |jobs| == |rest| + 1 && i < |t.jobs| && t.jobs[i] == JobFor(kind, now, BucketId(items[c])) && Ahead(t, i + 1, rest)
      else jobs == rest
  {
    assert items[c..][0] == items[c] && items[c..][1..] == items[c + 1..];
    if Mine(items[c], view, me) {
      var jobs := BucketJobs(kind, now, view, me, items[c..]);
      var rest := BucketJobs(kind, now, view, me, items[c + 1..]);
      assert jobs == [JobFor(kind, now, BucketId(items[c]))] + rest;
      assert t.jobs[i + 1..] == t.jobs[i..][1..];
      assert jobs[0] == t.jobs[i..][0];
    }
  }

  lemma PlanInFour(now: int, view: seq<string>, me: string, items: Option<seq<int>>, t: Tick)
    requires items.Some? && t.jobs == Plan(now, view, me, items)
    ensures var (a, b) := (BucketJobs(Inventory, now, view, me, items.value), BucketJobs(Trash, now, view, me, items.value));
      var (c, d) := (BucketJobs(Versions, now, view, me, items.value), BucketJobs(Multipart, now, view, me, items.value));
      && Ahead(t, 0, a) && Ahead(t, |a|, b) && Ahead(t, |a| + |b|, c) && Ahead(t, |a| + |b| + |c|, d)
      && |t.jobs| == |a| + |b| + |c| + |d| + 1 && t.jobs[|a| + |b| + |c| + |d|] == JobFor(Stats, now, All)
  {
  }

  lemma TimeGoesOn(s: State, e: Event)
    requires Enabled(NOTHING, s, e)
    ensures Step(NOTHING, s, e).clock >= s.clock
  {
    match e
    case Moves(p, m) => MovesTakeNoTime(s, p, m);
    case Works(p, w) => WorkTakesNoTime(s, p, w);
    case Drifts(d) => DriftsTouchNobody(s, d);
  }

  lemma MovesTakeNoTime(s: State, p: Proc, m: Move)
    requires MoveEnabled(s, p, m)
    ensures MoveStep(s, p, m).clock == s.clock
  {
  }

  lemma WorkTakesNoTime(s: State, p: Proc, w: Work)
    requires WorkEnabled(NOTHING, s, p, w)
    ensures WorkStep(NOTHING, s, p, w).clock == s.clock
  {
  }

  lemma ForeignStepsLeaveUsAlone(s: State, e: Event, p: Proc)
    requires p in s.procs && Enabled(NOTHING, s, e) && Foreign(e, p)
    ensures p in Step(NOTHING, s, e).procs && Step(NOTHING, s, e).procs[p] == s.procs[p]
  {
    match e
    case Moves(q, m) => MovesAreLocal(s, q, m, p);
    case Works(q, w) => WorksAreLocal(s, q, w, p);
    case Drifts(d) => DriftsTouchNobody(s, d);
  }

  lemma MovesAreLocal(s: State, q: Proc, m: Move, p: Proc)
    requires MoveEnabled(s, q, m) && p in s.procs && p != q
    ensures var s' := MoveStep(s, q, m); p in s'.procs && s'.procs[p] == s.procs[p]
  {
  }

  lemma WorksAreLocal(s: State, q: Proc, w: Work, p: Proc)
    requires WorkEnabled(NOTHING, s, q, w) && p in s.procs && p != q
    ensures var s' := WorkStep(NOTHING, s, q, w); p in s'.procs && s'.procs[p] == s.procs[p]
  {
  }

  lemma DriftsTouchNobody(s: State, d: Drift)
    requires DriftEnabled(NOTHING, s, d)
    ensures DriftStep(NOTHING, s, d).procs == s.procs && DriftStep(NOTHING, s, d).clock >= s.clock
  {
  }

  lemma ClaimSteps(s: State, p: Proc, sent: bool)
    requires AtJob(s, p)
    ensures var x := s.procs[p];
      && Enabled(NOTHING, s, Works(p, ClaimError(sent)))
      && Unanswered(s, p, sent).procs == s.procs[p := x.(pc := Working(x.pc.tick.(clean := false), x.pc.i + 1))]
      && Step(NOTHING, s, Works(p, ClaimError(sent))) == Unanswered(s, p, sent)
    ensures var x := s.procs[p];
      if Live(s, Now(s, p).key) then
        && Enabled(NOTHING, s, Works(p, ClaimLost))
        && Step(NOTHING, s, Works(p, ClaimLost)).procs == s.procs[p := x.(pc := Working(x.pc.tick, x.pc.i + 1))]
      else
        && Enabled(NOTHING, s, Works(p, ClaimWon))
        && Step(NOTHING, s, Works(p, ClaimWon)) == Won(s, p)
  {
  }

  lemma EnqueueSteps(s: State, p: Proc, stored: bool)
    requires AtHeld(s, p) && (stored ==> Now(s, p).key !in s.queue)
    ensures var x := s.procs[p];
      && Enabled(NOTHING, s, Works(p, EnqueueError(stored)))
      && Step(NOTHING, s, Works(p, EnqueueError(stored))).procs
           == s.procs[p := x.(pc := Dropping(x.pc.tick.(clean := false), x.pc.i))]
    ensures var x := s.procs[p];
      var e := Works(p, if Now(s, p).key in s.queue then EnqueueConflict else EnqueueOk);
      Enabled(NOTHING, s, e) && Step(NOTHING, s, e).procs == s.procs[p := x.(pc := Working(x.pc.tick, x.pc.i + 1))]
  {
  }

  lemma ResendSteps(s: State, p: Proc)
    ensures AtJob(s, p) ==>
      && Enabled(NOTHING, s, Works(p, ClaimResent))
      && Step(NOTHING, s, Works(p, ClaimResent)).procs == s.procs
    ensures AtHeld(s, p) && Now(s, p).key !in s.queue ==>
      && Enabled(NOTHING, s, Works(p, EnqueueResent))
      && Step(NOTHING, s, Works(p, EnqueueResent)).procs == s.procs
  {
  }

  lemma DropStep(s: State, p: Proc)
    requires AtDrop(s, p)
    ensures var x := s.procs[p];
      && Enabled(NOTHING, s, Works(p, SendDrop))
      && Step(NOTHING, s, Works(p, SendDrop)).procs == s.procs[p := x.(pc := Working(x.pc.tick, x.pc.i + 1))]
  {
  }

  class Scheduler {
    const p: Proc
    const smooth: bool   // no claim or enqueue of this process fails
    var st: State
    ghost const start: State
    ghost var trace: seq<Event>

    ghost predicate Valid()
      reads this
    {
      p in st.procs && Runs(NOTHING, start, trace) && After(NOTHING, start, trace) == st
    }

    /** The process has read the clock, after the view. */
    ghost predicate IsTimed(now: int, view: seq<string>)
      reads this
    {
      p in st.procs && st.procs[p].pc.Timed? && st.procs[p].pc.now == now && st.procs[p].pc.view == view
    }

    /** The tick and job index of a process that is past its claim-free preamble. */
    ghost predicate At(t: Tick, i: nat)
      reads this
    {
      p in st.procs && st.procs[p].pc == Working(t, i)
    }

    constructor (p: Proc, st: State, smooth: bool)
      requires p in st.procs
      ensures Valid() && this.p == p && this.st == st && this.smooth == smooth && start == st && trace == []
    {
      this.p, this.st, this.smooth, start, trace := p, st, smooth, st, [];
    }

    method Act(e: Event)
      requires Valid() && Enabled(NOTHING, st, e)
      requires p in Step(NOTHING, st, e).procs
      modifies this
      ensures Valid() && st == Step(NOTHING, old(st), e) && trace == old(trace) + [e]
      ensures st.clock >= old(st.clock)
    {
      TimeGoesOn(st, e);
      RunsExtend(NOTHING, start, trace, e);
      st := Step(NOTHING, st, e);
      trace := trace + [e];
    }

    /** Any number of steps of the other processes and the stores. */
    method Others()
      requires Valid()
      modifies this
      ensures Valid() && st.procs[p] == old(st.procs[p]) && st.clock >= old(st.clock)
      ensures old(trace) <= trace && forall j :: |old(trace)| <= j < |trace| ==> Foreign(trace[j], p)
    {
      var n: nat :| true;
      for c := 0 to n
        invariant Valid() && st.procs[p] == old(st.procs[p]) && st.clock >= old(st.clock)
        invariant old(trace) <= trace && forall j :: |old(trace)| <= j < |trace| ==> Foreign(trace[j], p)
      {
        assert Enabled(NOTHING, st, Drifts(Passes(0)));
        var e: Event :| Enabled(NOTHING, st, e) && Foreign(e, p);
        ForeignStepsLeaveUsAlone(st, e, p);
        Act(e);
      }
    }

    /** A request is under way: the others go on, and the client may send it again any number of times. */
    method Await(claiming: bool, ghost t: Tick, ghost i: nat)
      requires Valid() && i < |t.jobs| && st.procs[p].pc == if claiming then Working(t, i) else Holding(t, i)
      modifies this
      ensures Valid() && st.procs[p] == old(st.procs[p]) && st.clock >= old(st.clock)
    {
      Others();
      var n: int := *;
      for c := 0 to if n < 0 then 0 else n
        invariant Valid() && st.procs[p] == old(st.procs[p]) && st.clock >= old(st.clock)
      {
        SendAgain(claiming, t, i);
        Others();
      }
    }

    method SendAgain(claiming: bool, ghost t: Tick, ghost i: nat)
      requires Valid() && i < |t.jobs| && st.procs[p].pc == if claiming then Working(t, i) else Holding(t, i)
      modifies this
      ensures Valid() && st.procs[p] == old(st.procs[p]) && st.clock >= old(st.clock)
    {
      if claiming {
        ResendSteps(st, p);
        Act(Works(p, ClaimResent));
      } else if Now(st, p).key !in st.queue {
        ResendSteps(st, p);
        Act(Works(p, EnqueueResent));
      }
    }

    /** SET NX with its three outcomes. */
    method Claim(k: Key, ttl: int, ghost t: Tick, ghost i: nat) returns (won: bool, failed: bool)
      requires Valid() && At(t, i) && i < |t.jobs| && t.jobs[i] == Job(k, ttl)
      modifies this
      ensures Valid()
      ensures failed ==> !won && !smooth && At(t.(clean := false), i + 1)
      ensures won ==> st.procs[p].pc == Holding(t, i) && k in st.claims
      ensures !failed && !won ==> At(t, i + 1)
      ensures st.procs[p].me == old(st.procs[p].me) && st.procs[p].last == old(st.procs[p].last)
      ensures st.clock >= old(st.clock)
    {
      Await(true, t, i);
      won, failed := false, *;
      failed := failed && !smooth;
      if failed {
        var sent: bool := *;
        ClaimSteps(st, p, sent);
        Act(Works(p, ClaimError(sent)));
      } else if Live(st, k) {
        ClaimSteps(st, p, false);
        Act(Works(p, ClaimLost));
      } else {
        ClaimSteps(st, p, false);
        won := true;
        Act(Works(p, ClaimWon));
      }
    }

    method Drop(k: Key, ghost t: Tick, ghost i: nat)
      requires Valid() && st.procs[p].pc == Dropping(t, i) && i < |t.jobs| && t.jobs[i].key == k
      modifies this
      ensures Valid() && At(t, i + 1)
      ensures st.procs[p].me == old(st.procs[p].me) && st.procs[p].last == old(st.procs[p].last)
      ensures st.clock >= old(st.clock)
    {
      Others();
      DropStep(st, p);
      Act(Works(p, SendDrop));
    }

    method FailAndDrop(k: Key, ghost t: Tick, ghost i: nat)
      requires Valid() && st.procs[p].pc == Holding(t, i) && i < |t.jobs| && t.jobs[i].key == k
      modifies this
      ensures Valid() && At(t.(clean := false), i + 1)
      ensures st.procs[p].me == old(st.procs[p].me) && st.procs[p].last == old(st.procs[p].last)
      ensures st.clock >= old(st.clock)
    {
      var stored: bool := *;
      stored := stored && k !in st.queue;
      EnqueueSteps(st, p, stored);
      Act(Works(p, EnqueueError(stored)));
      Drop(k, t.(clean := false), i);
    }

    /** Enqueue under the claim's name; a failure other than a conflict drops the claim. */
    method Enqueue(k: Key, ghost t: Tick, ghost i: nat)
      requires Valid() && st.procs[p].pc == Holding(t, i) && i < |t.jobs| && t.jobs[i].key == k
      modifies this
      ensures Valid() && (At(t, i + 1) || (!smooth && At(t.(clean := false), i + 1)))
      ensures st.procs[p].me == old(st.procs[p].me) && st.procs[p].last == old(st.procs[p].last)
      ensures st.clock >= old(st.clock)
    {
      Await(false, t, i);
      var failed: bool := *;
      if failed && !smooth {
        FailAndDrop(k, t, i);
      } else if k in st.queue {
        EnqueueSteps(st, p, false);
        Act(Works(p, EnqueueConflict));
      } else {
        EnqueueSteps(st, p, false);
        Act(Works(p, EnqueueOk));
      }
    }

    /** One loop over the buckets. It works off exactly the jobs planned for this kind. */
    method EnqueueBuckets(kind: Kind, items: seq<int>, members: seq<string>, now: int, ghost t0: Tick, ghost i0: nat)
      returns (ghost t: Tick, ghost i: nat)
      requires Valid() && At(t0, i0)
      requires Ahead(t0, i0, BucketJobs(kind, now, members, st.procs[p].me, items))
      modifies this
      ensures Valid() && At(t, i) && SameTick(t, t0) && (smooth ==> t == t0)
      ensures i == i0 + |BucketJobs(kind, now, members, old(st.procs[p].me), items)|
      ensures st.procs[p].me == old(st.procs[p].me) && st.procs[p].last == old(st.procs[p].last)
      ensures st.clock >= old(st.clock)
    {
      var me := st.procs[p].me;
      var slot, ttl := SlotStart(now, kind.Interval()), SlotTtl(now, kind.Interval());
      t, i := t0, i0;
      for c := 0 to |items|
        invariant Valid() && At(t, i) && SameTick(t, t0) && (smooth ==> t == t0)
        invariant i + |BucketJobs(kind, now, members, me, items[c..])| == i0 + |BucketJobs(kind, now, members, me, items)|
        invariant Ahead(t, i, BucketJobs(kind, now, members, me, items[c..]))
        invariant st.procs[p].me == me && st.procs[p].last == old(st.procs[p].last) && st.clock >= old(st.clock)
      {
        NextBucket(kind, now, members, me, items, c, t, i);
        if !Mine(items[c], members, me) {
          continue;
        }
        var k := Key(slot, kind, BucketId(items[c]));
        var won, failed := Claim(k, ttl, t, i);
        if failed {
          t, i := t.(clean := false), i + 1;
          continue;
        }
        if !won {
          i := i + 1;
          continue;
        }
        Enqueue(k, t, i);
        t, i := st.procs[p].pc.tick, i + 1;
      }
    }

    /** The group-wide job, which is the last of the plan. */
    method EnqueueStats(now: int, ghost t0: Tick, ghost i: nat)
      requires Valid() && At(t0, i) && i + 1 == |t0.jobs| && t0.jobs[i] == JobFor(Stats, now, All)
      modifies this
      ensures Valid() && i + 1 == |t0.jobs| && (At(t0, i + 1) || (!smooth && At(t0.(clean := false), i + 1)))
      ensures st.procs[p].me == old(st.procs[p].me) && st.procs[p].last == old(st.procs[p].last)
      ensures st.clock >= old(st.clock)
    {
      var k := Key(SlotStart(now, Stats.Interval()), Stats, All);
      var won, failed := Claim(k, SlotTtl(now, Stats.Interval()), t0, i);
      if failed || !won {
        return;
      }
      Enqueue(k, t0, i);
    }

    /** The four bucket loops of a tick. */
    method EnqueueKinds(items: seq<int>, members: seq<string>, now: int, ghost t0: Tick)
      returns (ghost t: Tick, ghost i: nat)
      requires Valid() && At(t0, 0) && t0.jobs == Plan(now, members, st.procs[p].me, Some(items))
      modifies this
      ensures Valid() && At(t, i) && SameTick(t, t0) && (smooth ==> t == t0) && i + 1 == |t.jobs| && t.jobs[i] == JobFor(Stats, now, All)
      ensures st.procs[p].me == old(st.procs[p].me) && st.procs[p].last == old(st.procs[p].last)
      ensures st.clock >= old(st.clock)
    {
      PlanInFour(now, members, st.procs[p].me, Some(items), t0);
      t, i := EnqueueBuckets(Inventory, items, members, now, t0, 0);
      t, i := EnqueueBuckets(Trash, items, members, now, t, i);
      t, i := EnqueueBuckets(Versions, items, members, now, t, i);
      t, i := EnqueueBuckets(Multipart, items, members, now, t, i);
    }

    /** Heartbeat, member view and clock; a failure of the first two ends the tick. */
    method Prepare(beats: bool, view: Option<seq<string>>) returns (now: Option<int>)
      requires Valid() && st.procs[p].pc == Idle && (view.Some? ==> IsView(view.value, st.procs[p].me))
      modifies this
      ensures Valid() && st.procs[p].me == old(st.procs[p].me) && st.procs[p].last == old(st.procs[p].last)
      ensures now.Some? <==> beats && view.Some?
      ensures now.None? ==> st.procs[p].pc == Idle
      ensures now.Some? ==> old(st.clock) <= now.value <= st.clock && IsTimed(now.value, view.value)
      ensures st.clock >= old(st.clock)
    {
      Others();
      if !beats {
        var landed: bool := *;
        Act(Moves(p, BeatFails(landed)));
        return None;
      }
      Act(Moves(p, Beat));
      Others();
      if view.None? {
        Act(Moves(p, MembersFail));
        return None;
      }
      Act(Moves(p, ReadMembers(view.value)));
      Others();
      Act(Moves(p, ReadClock));
      now := Some(st.procs[p].pc.now);
      Others();
    }

    /**
     * One tick, given whether the beat gets through, the member view and the bucket list (None when they fail).
     * Whatever fails, the process ends up idle; when the beat and the view come through it has worked off the
     * whole plan of a clock reading of this run, and without further failures the tick is clean.
     */
    method Run(beats: bool, view: Option<seq<string>>, items: Option<seq<int>>)
      requires Valid() && st.procs[p].pc == Idle && (view.Some? ==> IsView(view.value, st.procs[p].me))
      modifies this
      ensures Valid() && st.procs[p].pc == Idle && st.procs[p].me == old(st.procs[p].me)
      ensures if beats && view.Some? then
          st.procs[p].last.Some? &&
          var t := st.procs[p].last.value;
          && t.view == view.value && t.items == items && t.jobs == Plan(t.now, view.value, st.procs[p].me, items)
          && old(st.clock) <= t.now <= st.clock && (smooth ==> t.clean)
        else st.procs[p].last == old(st.procs[p].last)
    {
      var now := Prepare(beats, view);
      if now.None? {
        return;
      }
      Act(Moves(p, ListBuckets(items)));
      ghost var t, i := st.procs[p].pc.tick, 0;
      if items.Some? {
        t, i := EnqueueKinds(items.value, view.value, now.value, t);
      }
      EnqueueStats(now.value, t, i);
      Others();
      Act(Moves(p, Finish));
    }
  }
}
