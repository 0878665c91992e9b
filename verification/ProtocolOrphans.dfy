/**
 * What the group does not make up for: a claim whose claimant died before enqueueing
 * stays, and its task is not stored in that slot by anybody, ever.
 */
module ProtocolOrphans {
  import opened Base
  import opened Sched
  import opened Protocol
  import opened ProtocolFacts
  import opened ProtocolCoverage

  // ---- For good ----

  lemma StepKeepsOrphans(a: Assumptions, s: State, e: Event)
    requires Enabled(a, s, e)
    ensures s.orphaned <= Step(a, s, e).orphaned
  {
    match e
    case Moves(p, m) => MoveKeepsOrphans(s, p, m);
    case Works(p, w) => WorkKeepsOrphans(a, s, p, w);
    case Drifts(d) => DriftKeepsOrphans(a, s, d);
  }

  lemma MoveKeepsOrphans(s: State, p: Proc, m: Move)
    requires MoveEnabled(s, p, m)
    ensures s.orphaned <= MoveStep(s, p, m).orphaned
  {
  }

  lemma WorkKeepsOrphans(a: Assumptions, s: State, p: Proc, w: Work)
    requires WorkEnabled(a, s, p, w)
    ensures s.orphaned == WorkStep(a, s, p, w).orphaned
  {
  }

  lemma DriftKeepsOrphans(a: Assumptions, s: State, d: Drift)
    requires DriftEnabled(a, s, d)
    ensures s.orphaned <= DriftStep(a, s, d).orphaned
  {
  }

  lemma {:induction false} OrphansStay(a: Assumptions, s0: State, es: seq<Event>, n: nat)
    requires Runs(a, s0, es) && n <= |es| && Runs(a, s0, es[..n])
    ensures After(a, s0, es[..n]).orphaned <= After(a, s0, es).orphaned
    decreases |es|
  {
    if n < |es| {
      var m := |es| - 1;
      assert es[..m][..n] == es[..n];
      OrphansStay(a, s0, es[..m], n);
      StepKeepsOrphans(a, After(a, s0, es[..m]), es[m]);
    } else {
      assert es[..n] == es;
    }
  }

  /** Once a claim is orphaned its task is never stored, however the run goes on. */
  lemma OrphanedClaimsAreNeverStored(s0: State, es: seq<Event>, more: seq<Event>, k: Key)
    requires Init(s0) && Runs(ASSUMED, s0, es) && k in After(ASSUMED, s0, es).orphaned
    requires Runs(ASSUMED, s0, es + more)
    ensures After(ASSUMED, s0, es + more).enqueued[k] == 0
  {
    assert (es + more)[..|es|] == es;
    OrphansStay(ASSUMED, s0, es + more, |es|);
    RunKeepsInv(s0, es + more);
    var s := After(ASSUMED, s0, es + more);
    assert TasksOk(s.claims, s.enqueued, s.queue, s.orphaned);
  }

  // ---- A tick worked off without failures ----

  /** What is live stays as it is, and is not stored anew. */
  ghost predicate LeavesLive(s: State, s': State) {
    && s'.clock == s.clock && s'.orphaned == s.orphaned
    && forall k :: Live(s, k) ==> Live(s', k) && s'.claims[k] == s.claims[k] && s'.enqueued[k] == s.enqueued[k]
  }

  predicate IsTimely(s: State, p: Proc) {
    AtJob(s, p) ==> s.clock < Now(s, p).key.End()
  }

  /** One job: lost to another, or won and enqueued. */
  lemma WorkOffOne(s0: State, s: State, p: Proc) returns (s': State)
    requires Reaches(ASSUMED, s0, s) && AtJob(s, p) && IsTimely(s, p)
    ensures Reaches(ASSUMED, s0, s') && LeavesLive(s, s') && OthersStay(s, s', p)
    ensures s'.procs[p] == s.procs[p].(pc := Working(s.procs[p].pc.tick, s.procs[p].pc.i + 1))
  {
    if Live(s, Now(s, p).key) {
      LosingIsQuiet(s, p);
      s' := ThenWorks(ASSUMED, s0, s, p, ClaimLost);
    } else {
      s' := WinOne(s0, s, p);
    }
  }

  lemma LosingIsQuiet(s: State, p: Proc)
    requires AtJob(s, p)
    ensures LeavesLive(s, NextJob(s, p)) && OthersStay(s, NextJob(s, p), p)
    ensures NextJob(s, p).procs[p] == s.procs[p].(pc := Working(s.procs[p].pc.tick, s.procs[p].pc.i + 1))
  {
  }

  lemma WinningIsQuiet(s: State, p: Proc)
    requires AtJob(s, p) && !Live(s, Now(s, p).key)
    ensures var s' := Won(s, p);
      && LeavesLive(s, s') && OthersStay(s, s', p) && AtHeld(s', p) && Now(s', p).key == Now(s, p).key
      && s'.procs[p] == s.procs[p].(pc := Holding(s.procs[p].pc.tick, s.procs[p].pc.i))
  {
  }

  lemma WinOne(s0: State, s: State, p: Proc) returns (s': State)
    requires Reaches(ASSUMED, s0, s) && AtJob(s, p) && IsTimely(s, p) && !Live(s, Now(s, p).key)
    ensures Reaches(ASSUMED, s0, s') && LeavesLive(s, s') && OthersStay(s, s', p)
    ensures s'.procs[p] == s.procs[p].(pc := Working(s.procs[p].pc.tick, s.procs[p].pc.i + 1))
  {
    var s1 := ThenWorks(ASSUMED, s0, s, p, ClaimWon);
    WinningIsQuiet(s, p);
    s' := StoreOne(s0, s1, p);
  }

  lemma StoreOne(s0: State, s: State, p: Proc) returns (s': State)
    requires Reaches(ASSUMED, s0, s) && AtHeld(s, p)
    ensures Reaches(ASSUMED, s0, s') && OthersStay(s, s', p)
    ensures s'.claims == s.claims && s'.orphaned == s.orphaned
    ensures forall k :: k != Now(s, p).key ==> s'.enqueued[k] == s.enqueued[k]
    ensures s'.procs[p] == s.procs[p].(pc := Working(s.procs[p].pc.tick, s.procs[p].pc.i + 1))
  {
    if Now(s, p).key in s.queue {
      s' := ThenWorks(ASSUMED, s0, s, p, EnqueueConflict);
    } else {
      s' := ThenWorks(ASSUMED, s0, s, p, EnqueueOk);
    }
  }

  lemma {:induction false} FinishTick(s0: State, s: State, p: Proc, t: Tick, i: nat) returns (s': State)
    requires Reaches(ASSUMED, s0, s) && p in s.procs && s.procs[p].pc == Working(t, i) && i <= |t.jobs|
    requires forall j :: j in t.jobs ==> s.clock < j.key.End()
    ensures Reaches(ASSUMED, s0, s') && LeavesLive(s, s') && p in s'.procs
    ensures s'.procs[p] == Process(s.procs[p].me, Idle, Some(t))
    decreases |t.jobs| - i
  {
    if i == |t.jobs| {
      s' := ThenMoves(ASSUMED, s0, s, p, Finish);
    } else {
      assert Now(s, p) in t.jobs;
      s' := WorkOffOne(s0, s, p);
      s' := FinishTick(s0, s', p, t, i + 1);
    }
  }

  lemma PlanIsTimely(now: int, view: seq<string>, me: string, items: Option<seq<int>>)
    ensures forall j :: j in Plan(now, view, me, items) ==> now < j.key.End()
  {
    SlotsTileTime(now, now, Stats.Interval());
    if items.Some? {
      JobsAreTimely(Inventory, now, view, me, items.value);
      JobsAreTimely(Trash, now, view, me, items.value);
      JobsAreTimely(Versions, now, view, me, items.value);
      JobsAreTimely(Multipart, now, view, me, items.value);
    }
  }

  lemma {:induction false} JobsAreTimely(kind: Kind, now: int, view: seq<string>, me: string, items: seq<int>)
    ensures forall j :: j in BucketJobs(kind, now, view, me, items) ==> now < j.key.End()
  {
    SlotsTileTime(now, now, kind.Interval());
    if items != [] {
      JobsAreTimely(kind, now, view, me, items[1..]);
    }
  }

  // ---- The run ----

  /** The inventory of bucket 0 in the slot that begins at time zero. */
  const BUCKET0 := Key(0, Inventory, BucketId(0))

  /** The first process claims the bucket's inventory and dies. */
  lemma ClaimAndDie() returns (s: State)
    ensures Reaches(ASSUMED, Fresh(2), s) && BUCKET0 in s.orphaned && s.clock == 0
    ensures BUCKET0 in s.claims && s.claims[BUCKET0].expiry == 15 * MINUTE && s.enqueued == multiset{}
    ensures 1 in s.procs && s.procs[1] == Process(Host(1), Idle, None)
  {
    var s0 := Fresh(2);
    ReachesItself(ASSUMED, s0);
    s := OpenTick(ASSUMED, s0, s0, 0, ["a"], Some([0]));
    FirstJob(["a"], "a");
    s := TakeAndDie(s0, s, 0);
  }

  lemma TakeAndDie(s0: State, s: State, p: Proc) returns (s': State)
    requires Reaches(ASSUMED, s0, s) && AtJob(s, p) && Now(s, p) == Job(BUCKET0, 15 * MINUTE)
    requires s.clock == 0 && BUCKET0 !in s.claims
    ensures Reaches(ASSUMED, s0, s') && BUCKET0 in s'.orphaned && s'.clock == 0 && s'.enqueued == s.enqueued
    ensures BUCKET0 in s'.claims && s'.claims[BUCKET0].expiry == 15 * MINUTE
    ensures forall q :: q in s.procs && q != p ==> q in s'.procs && s'.procs[q] == s.procs[q]
  {
    var s1 := ThenWorks(ASSUMED, s0, s, p, ClaimWon);
    assert Busy(s1.procs[p].pc) == Some(BUCKET0);
    s' := ThenMoves(ASSUMED, s0, s1, p, Crash);
  }

  lemma FirstJob(view: seq<string>, me: string)
    requires view == [me]
    ensures Plan(0, view, me, Some([0]))[0] == Job(BUCKET0, 15 * MINUTE)
  {
    AloneOwnsAll(0, me);
    assert [0][1..] == [];
  }

  lemma AloneOwnsAll(id: int, me: string)
    ensures Mine(id, [me], me)
  {
    ShardingIsAPartition(id, [me]);
    var m :| m in [me] && Mine(id, [me], m);
  }

  /** The survivor's heartbeat is the only one left when it opens its tick. */
  lemma SurvivorOpens() returns (s: State, t: Tick)
    ensures Reaches(ASSUMED, Fresh(2), s) && Live(s, BUCKET0) && BUCKET0 in s.orphaned
    ensures 1 in s.procs && s.procs[1] == Process("b", Working(t, 0), None)
    ensures t == Tick(BEAT_TTL, ["b"], BEAT_TTL, Some([0]), Plan(BEAT_TTL, ["b"], "b", Some([0])), true)
    ensures s.clock == BEAT_TTL
  {
    var s0 := Fresh(2);
    s := ClaimAndDie();
    s := ThenDrifts(ASSUMED, s0, s, Passes(BEAT_TTL));
    s := OpenTick(ASSUMED, s0, s, 1, ["b"], Some([0]));
    t := s.procs[1].pc.tick;
  }

  lemma SurvivorFinishes() returns (s: State)
    ensures Reaches(ASSUMED, Fresh(2), s) && Live(s, BUCKET0) && BUCKET0 in s.orphaned
    ensures 1 in s.procs && s.procs[1].pc == Idle && s.procs[1].me == "b"
    ensures Covers(s.procs[1], ["b"], 0, Inventory, 0, None)
  {
    var t;
    s, t := SurvivorOpens();
    PlanIsTimely(BEAT_TTL, ["b"], "b", Some([0]));
    s := FinishTick(Fresh(2), s, 1, t, 0);
    SlotsTileTime(0, BEAT_TTL, Inventory.Interval());
  }

  /**
   * The survivors of a group do not make up for a peer that died between claiming a bucket and enqueueing: the
   * survivor, which sees itself alone, finishes an error-free tick of the same slot that takes on the bucket, and
   * however the run goes on the bucket's task is never stored.
   */
  lemma SurvivorsMissAnOrphanedClaim()
    ensures exists es ::
      && Runs(ASSUMED, Fresh(2), es)
      && var s := After(ASSUMED, Fresh(2), es);
      && 1 in s.procs && s.procs[1].pc == Idle && Covers(s.procs[1], ["b"], 0, Inventory, 0, None)
      && Mine(0, ["b"], s.procs[1].me) && Live(s, BUCKET0)
      && forall more :: Runs(ASSUMED, Fresh(2), es + more) ==> After(ASSUMED, Fresh(2), es + more).enqueued[BUCKET0] == 0
  {
    var s0 := Fresh(2);
    var s := SurvivorFinishes();
    AloneOwnsAll(0, "b");
    var es :| Runs(ASSUMED, s0, es) && After(ASSUMED, s0, es) == s;
    forall more | Runs(ASSUMED, s0, es + more) ensures After(ASSUMED, s0, es + more).enqueued[BUCKET0] == 0 {
      OrphanedClaimsAreNeverStored(s0, es, more, BUCKET0);
    }
  }

  // ---- A claim that its own claimant takes for another's ----

  /** A SET NX lands without a reply and is on its way no more. */
  lemma ClaimLandsUnseen(s0: State, s: State, p: Proc) returns (s': State)
    requires Reaches(ASSUMED, s0, s) && AtJob(s, p) && IsTimely(s, p) && !Live(s, Now(s, p).key) && Now(s, p).ttl > 0
    ensures Reaches(ASSUMED, s0, s') && s'.procs == s.procs && s'.clock == s.clock
    ensures Live(s', Now(s, p).key) && Now(s, p).key in s'.orphaned
  {
    var m := SetMsg(Now(s, p).key, Now(s, p).ttl);
    var s1 := ThenWorks(ASSUMED, s0, s, p, ClaimResent);
    assert m in s1.sets && s1.clock == s.clock && s1.claims == s.claims && s1.procs == s.procs;
    s' := ThenDrifts(ASSUMED, s0, s1, SetLands(m));
  }

  /**
   * Nobody dies: the client sends a SET NX again whose reply was lost and is told that the key is taken. The process
   * finishes an error-free tick, and the bucket's task is never stored.
   */
  lemma CleanTickMissesItsOwnClaim()
    ensures exists es ::
      && Runs(ASSUMED, Fresh(1), es)
      && var s := After(ASSUMED, Fresh(1), es);
      && 0 in s.procs && s.procs[0].pc == Idle && Covers(s.procs[0], ["a"], 0, Inventory, 0, None)
      && Mine(0, ["a"], s.procs[0].me)
      && forall more :: Runs(ASSUMED, Fresh(1), es + more) ==> After(ASSUMED, Fresh(1), es + more).enqueued[BUCKET0] == 0
  {
    var s0 := Fresh(1);
    var s := LandUnseenAndFinish();
    AloneOwnsAll(0, "a");
    var es :| Runs(ASSUMED, s0, es) && After(ASSUMED, s0, es) == s;
    forall more | Runs(ASSUMED, s0, es + more) ensures After(ASSUMED, s0, es + more).enqueued[BUCKET0] == 0 {
      OrphanedClaimsAreNeverStored(s0, es, more, BUCKET0);
    }
  }

  lemma LandUnseenAndFinish() returns (s: State)
    ensures Reaches(ASSUMED, Fresh(1), s) && BUCKET0 in s.orphaned
    ensures 0 in s.procs && s.procs[0].pc == Idle && s.procs[0].me == "a"
    ensures Covers(s.procs[0], ["a"], 0, Inventory, 0, None)
  {
    var s0 := Fresh(1);
    ReachesItself(ASSUMED, s0);
    s := OpenTick(ASSUMED, s0, s0, 0, ["a"], Some([0]));
    var t := s.procs[0].pc.tick;
    FirstJob(["a"], "a");
    PlanIsTimely(0, ["a"], "a", Some([0]));
    assert Now(s, 0) == Job(BUCKET0, 15 * MINUTE);
    s := ClaimLandsUnseen(s0, s, 0);
    s := FinishTick(s0, s, 0, t, 0);
    SlotsTileTime(0, 0, Inventory.Interval());
  }
}
