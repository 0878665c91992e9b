/** What every run of the scheduler group keeps, and what each assumption is needed for. */
module ProtocolFacts {
  import opened Base
  import opened Text
  import opened Sched
  import opened Protocol

  // ---- Safety ----

  lemma {:induction false} RunKeepsInv(s0: State, es: seq<Event>)
    requires Init(s0) && Runs(ASSUMED, s0, es)
    ensures Inv(After(ASSUMED, s0, es))
    decreases |es|
  {
    if es == [] {
      InitHasInv(s0);
    } else {
      var n := |es| - 1;
      RunKeepsInv(s0, es[..n]);
      StepKeepsInv(After(ASSUMED, s0, es[..n]), es[n]);
    }
  }

  /** In every interleaving, each claim's task is stored at most once, ever. */
  lemma AtMostOneEnqueue(s0: State, es: seq<Event>, k: Key)
    requires Init(s0) && Runs(ASSUMED, s0, es)
    ensures After(ASSUMED, s0, es).enqueued[k] <= 1
  {
    RunKeepsInv(s0, es);
    var s := After(ASSUMED, s0, es);
    assert TasksOk(s.claims, s.enqueued, s.queue, s.orphaned);
    if k in s.enqueued {
      assert s.enqueued[k] == 1;
    }
  }

  /** No enqueue ever meets its own task id: the claims alone keep enqueues apart. */
  lemma NoTaskIdConflict(s0: State, es: seq<Event>, p: Proc)
    requires Init(s0) && Runs(ASSUMED, s0, es)
    ensures !WorkEnabled(ASSUMED, After(ASSUMED, s0, es), p, EnqueueConflict)
  {
    RunKeepsInv(s0, es);
    var s := After(ASSUMED, s0, es);
    if AtHeld(s, p) {
      var k := Now(s, p).key;
      assert Busy(s.procs[p].pc) == Some(k);
      assert k !in s.enqueued;
      assert TasksOk(s.claims, s.enqueued, s.queue, s.orphaned);
    }
  }

  /**
   * A lease outlasts its slot and is never overwritten; the only step that
   * removes it is the DEL of the process that holds it.
   */
  lemma ClaimLivesUnlessItsHolderDropsIt(s0: State, es: seq<Event>, e: Event, k: Key)
    requires Init(s0) && Runs(ASSUMED, s0, es)
    requires Enabled(ASSUMED, After(ASSUMED, s0, es), e) && k in After(ASSUMED, s0, es).claims
    ensures var s := After(ASSUMED, s0, es);
      var s' := Step(ASSUMED, s, e);
      && (s.clock < k.End() ==> Live(s, k))
      && ((k in s'.claims && s'.claims[k] == s.claims[k])
          || (k !in s'.claims && e.Drifts? && e.drift.DelLands? && e.drift.del.key == k
              && s.claims[k].holder == Some(e.drift.del.issuer)))
  {
    RunKeepsInv(s0, es);
    var s := After(ASSUMED, s0, es);
    assert s.claims[k].expiry >= k.End();
    match e
    case Moves(p, m) => MoveLeavesClaims(s, p, m);
    case Works(p, w) => WorkLeavesClaim(s, p, w, k);
    case Drifts(d) => DriftLeavesClaim(s, d, k);
  }

  lemma MoveLeavesClaims(s: State, p: Proc, m: Move)
    requires MoveEnabled(s, p, m)
    ensures MoveStep(s, p, m).claims == s.claims
  {
  }

  lemma WorkLeavesClaim(s: State, p: Proc, w: Work, k: Key)
    requires WorkEnabled(ASSUMED, s, p, w) && k in s.claims && s.claims[k].expiry >= k.End()
    ensures var s' := WorkStep(ASSUMED, s, p, w); k in s'.claims && s'.claims[k] == s.claims[k]
  {
  }

  lemma DriftLeavesClaim(s: State, d: Drift, k: Key)
    requires DriftEnabled(ASSUMED, s, d) && k in s.claims && s.claims[k].expiry >= k.End()
    requires DelsOk(s.procs, s.claims, s.dels, s.enqueued, s.orphaned)
    ensures var s' := DriftStep(ASSUMED, s, d);
      || (k in s'.claims && s'.claims[k] == s.claims[k])
      || (k !in s'.claims && d.DelLands? && d.del.key == k && s.claims[k].holder == Some(d.del.issuer))
  {
  }

  // ---- Each assumption is needed ----

  /** s can be reached from s0. */
  ghost predicate Reaches(a: Assumptions, s0: State, s: State) {
    exists es :: Runs(a, s0, es) && After(a, s0, es) == s
  }

  lemma ReachesItself(a: Assumptions, s0: State)
    ensures Reaches(a, s0, s0)
  {
    assert Runs(a, s0, []);
  }

  lemma Then(a: Assumptions, s0: State, s: State, e: Event) returns (s': State)
    requires Reaches(a, s0, s) && Enabled(a, s, e)
    ensures s' == Step(a, s, e) && Reaches(a, s0, s')
  {
    var es :| Runs(a, s0, es) && After(a, s0, es) == s;
    RunsExtend(a, s0, es, e);
    s' := Step(a, s, e);
  }

  lemma ThenWorks(a: Assumptions, s0: State, s: State, p: Proc, w: Work) returns (s': State)
    requires Reaches(a, s0, s) && WorkEnabled(a, s, p, w)
    ensures s' == WorkStep(a, s, p, w) && Reaches(a, s0, s')
  {
    s' := Then(a, s0, s, Works(p, w));
  }

  lemma ThenMoves(a: Assumptions, s0: State, s: State, p: Proc, m: Move) returns (s': State)
    requires Reaches(a, s0, s) && MoveEnabled(s, p, m)
    ensures s' == MoveStep(s, p, m) && Reaches(a, s0, s')
  {
    s' := Then(a, s0, s, Moves(p, m));
  }

  lemma ThenDrifts(a: Assumptions, s0: State, s: State, d: Drift) returns (s': State)
    requires Reaches(a, s0, s) && DriftEnabled(a, s, d)
    ensures s' == DriftStep(a, s, d) && Reaches(a, s0, s')
  {
    s' := Then(a, s0, s, Drifts(d));
  }

  function Host(p: Proc): string {
    if p == 0 then "a" else if p == 1 then "b" else "c"
  }

  /** n idle processes at time zero. */
  function Fresh(n: nat): State {
    State(0, map p: nat | p < n :: Process(Host(p), Idle, None), map[], map[], multiset{}, multiset{}, {}, multiset{}, {})
  }

  /** The other processes are as they were, and time has not passed. */
  ghost predicate OthersStay(s: State, s': State, p: Proc) {
    && (forall q :: q != p ==> (q in s'.procs <==> q in s.procs) && (q in s.procs ==> s'.procs[q] == s.procs[q]))
    && p in s.procs && p in s'.procs && s'.procs[p].me == s.procs[p].me && s'.clock == s.clock
  }

  ghost predicate StoresStay(s: State, s': State) {
    s'.claims == s.claims && s'.sets == s.sets && s'.dels == s.dels
    && s'.queue == s.queue && s'.enqueued == s.enqueued && s'.orphaned == s.orphaned
  }

  /** The tick of a process that looks at the group and the buckets now. */
  function TickNow(s: State, p: Proc, view: seq<string>, items: Option<seq<int>>): Tick
    requires p in s.procs
  {
    Tick(s.clock, view, s.clock, items, Plan(s.clock, view, s.procs[p].me, items), true)
  }

  /** A process opens a tick: it beats, sees the group and lists the buckets. */
  lemma OpenTick(a: Assumptions, s0: State, s: State, p: Proc, view: seq<string>, items: Option<seq<int>>)
    returns (s': State)
    requires Reaches(a, s0, s) && p in s.procs && s.procs[p].pc == Idle && IsView(view, s.procs[p].me)
    ensures Reaches(a, s0, s') && OthersStay(s, s', p) && StoresStay(s, s')
    ensures s'.procs[p] == s.procs[p].(pc := Working(TickNow(s, p, view, items), 0))
  {
    s' := BeatAndLook(a, s0, s, p, view);
    s' := ReadAndPlan(a, s0, s', p, items);
  }

  lemma BeatAndLook(a: Assumptions, s0: State, s: State, p: Proc, view: seq<string>) returns (s': State)
    requires Reaches(a, s0, s) && p in s.procs && s.procs[p].pc == Idle && IsView(view, s.procs[p].me)
    ensures Reaches(a, s0, s') && OthersStay(s, s', p) && StoresStay(s, s')
    ensures s'.procs[p] == s.procs[p].(pc := Viewed(view, s.clock))
  {
    var s1 := ThenMoves(a, s0, s, p, Beat);
    assert s1.procs[p] == s.procs[p].(pc := Beaten) && s1.clock == s.clock;
    s' := ThenMoves(a, s0, s1, p, ReadMembers(view));
  }

  lemma ReadAndPlan(a: Assumptions, s0: State, s: State, p: Proc, items: Option<seq<int>>) returns (s': State)
    requires Reaches(a, s0, s) && p in s.procs && s.procs[p].pc.Viewed? && s.procs[p].pc.seen == s.clock
    ensures Reaches(a, s0, s') && OthersStay(s, s', p) && StoresStay(s, s')
    ensures s'.procs[p] == s.procs[p].(pc := Working(TickNow(s, p, s.procs[p].pc.view, items), 0))
  {
    var s1 := ThenMoves(a, s0, s, p, ReadClock);
    assert s1.procs[p] == s.procs[p].(pc := Timed(s.clock, s.procs[p].pc.view, s.clock)) && s1.clock == s.clock;
    s' := ThenMoves(a, s0, s1, p, ListBuckets(items));
  }

  const STATS0 := Job(Key(0, Stats, All), HOUR)

  /** The tick of a process at time zero whose bucket list failed: only the stats job of slot 0 is left. */
  function StatsTick(view: seq<string>): Tick {
    Tick(0, view, 0, None, [STATS0], true)
  }

  predicate IsReady(s: State, p: Proc, view: seq<string>) {
    p in s.procs && s.procs[p] == Process(Host(p), Working(StatsTick(view), 0), None)
  }

  /** A process opens such a tick. */
  lemma OpenStatsTick(a: Assumptions, s0: State, s: State, p: Proc, view: seq<string>) returns (s': State)
    requires Reaches(a, s0, s) && s.clock == 0 && IsView(view, Host(p))
    requires p in s.procs && s.procs[p] == Process(Host(p), Idle, None)
    ensures Reaches(a, s0, s') && OthersStay(s, s', p) && StoresStay(s, s') && IsReady(s', p, view)
  {
    s' := OpenTick(a, s0, s, p, view, None);
    assert Plan(0, view, Host(p), None) == [STATS0];
  }

  predicate IsHolding(s: State, p: Proc, view: seq<string>) {
    p in s.procs && s.procs[p].pc == Holding(StatsTick(view), 0)
  }

  /** A ready process claims slot 0. */
  lemma ClaimStats(a: Assumptions, s0: State, s: State, p: Proc, view: seq<string>) returns (s': State)
    requires Reaches(a, s0, s) && IsReady(s, p, view)
    requires !Live(s, STATS0.key) && (a.timelySets ==> s.clock < HOUR)
    ensures Reaches(a, s0, s') && OthersStay(s, s', p) && IsHolding(s', p, view)
    ensures StoresStay(s.(claims := s.claims[STATS0.key := Lease(s.clock + HOUR, Some(p))]), s')
  {
    StatsWon(s, p, view);
    s' := ThenWorks(a, s0, s, p, ClaimWon);
  }

  lemma StatsWon(s: State, p: Proc, view: seq<string>)
    requires IsReady(s, p, view)
    ensures AtJob(s, p) && Now(s, p) == STATS0
    ensures OthersStay(s, Won(s, p), p) && IsHolding(Won(s, p), p, view)
    ensures StoresStay(s.(claims := s.claims[STATS0.key := Lease(s.clock + HOUR, Some(p))]), Won(s, p))
  {
  }

  /** Its task is stored. */
  lemma StoreStats(a: Assumptions, s0: State, s: State, p: Proc, view: seq<string>) returns (s': State)
    requires Reaches(a, s0, s) && IsHolding(s, p, view) && s.queue == {}
    ensures Reaches(a, s0, s') && OthersStay(s, s', p) && s'.procs[p].pc.Working?
    ensures StoresStay(s.(queue := {STATS0.key}, enqueued := s.enqueued + multiset{STATS0.key}), s')
  {
    assert Now(s, p) == STATS0;
    s' := ThenWorks(a, s0, s, p, EnqueueOk);
  }

  predicate IsDropping(s: State, p: Proc, view: seq<string>) {
    p in s.procs && s.procs[p].pc == Dropping(StatsTick(view).(clean := false), 0)
  }

  /** The claimant is told that storing its task failed. */
  lemma FailStats(a: Assumptions, s0: State, s: State, p: Proc, view: seq<string>, stored: bool) returns (s': State)
    requires Reaches(a, s0, s) && IsHolding(s, p, view) && s.queue == {} && (stored ==> !a.honestFailures)
    ensures Reaches(a, s0, s') && OthersStay(s, s', p) && IsDropping(s', p, view)
    ensures StoresStay(if stored then Stored(s, STATS0.key) else s, s')
  {
    assert Now(s, p) == STATS0;
    s' := ThenWorks(a, s0, s, p, EnqueueError(stored));
  }

  /** It sends a DEL. */
  lemma DropStats(a: Assumptions, s0: State, s: State, p: Proc, view: seq<string>) returns (s': State)
    requires Reaches(a, s0, s) && IsDropping(s, p, view)
    ensures Reaches(a, s0, s') && OthersStay(s, s', p)
    ensures StoresStay(s.(dels := s.dels + multiset{DelMsg(STATS0.key, p)}), s')
  {
    assert Now(s, p) == StatsTick(view).jobs[0];
    s' := ThenWorks(a, s0, s, p, SendDrop);
  }

  /** A ready process claims slot 0, is told the enqueue failed, and sends a DEL. */
  lemma ClaimAndFail(a: Assumptions, s0: State, s: State, p: Proc, view: seq<string>, stored: bool) returns (s': State)
    requires Reaches(a, s0, s) && IsReady(s, p, view)
    requires !Live(s, STATS0.key) && s.clock < HOUR && s.queue == {} && (stored ==> !a.honestFailures)
    ensures Reaches(a, s0, s') && OthersStay(s, s', p)
    ensures StoresStay((if stored then Stored(s, STATS0.key) else s).(
                         claims := s.claims[STATS0.key := Lease(s.clock + HOUR, Some(p))],
                         dels := s.dels + multiset{DelMsg(STATS0.key, p)}), s')
  {
    s' := ClaimStats(a, s0, s, p, view);
    s' := FailStats(a, s0, s', p, view, stored);
    s' := DropStats(a, s0, s', p, view);
  }

  /** The slot goes by, and the queue forgets the task. */
  lemma SlotGoesBy(a: Assumptions, s0: State, s: State) returns (s': State)
    requires Reaches(a, s0, s) && s.clock >= 0 && s.queue == {STATS0.key}
    requires a.retention.UntilNobodyHolds? ==> forall q :: q in s.procs ==> !IsHolderOf(s.procs[q].pc, STATS0.key)
    ensures Reaches(a, s0, s') && s'.procs == s.procs && s'.clock == s.clock + HOUR
    ensures StoresStay(s.(queue := {}), s')
  {
    var s1 := ThenDrifts(a, s0, s, Passes(HOUR));
    s' := ThenDrifts(a, s0, s1, TaskLeaves(STATS0.key));
    assert s'.queue == {};
  }

  /** Two or three processes, each seeing those that have beaten before it, open their ticks. */
  lemma OpenTwo(a: Assumptions) returns (s: State)
    ensures Reaches(a, Fresh(2), s) && StoresStay(Fresh(2), s) && s.clock == 0
    ensures IsReady(s, 0, ["a"]) && IsReady(s, 1, ["a", "b"])
    ensures forall q :: q in s.procs ==> q == 0 || q == 1
  {
    var s0 := Fresh(2);
    ReachesItself(a, s0);
    assert Less("a", "b");
    s := OpenStatsTick(a, s0, s0, 0, ["a"]);
    s := OpenStatsTick(a, s0, s, 1, ["a", "b"]);
  }

  lemma OpenThree(a: Assumptions) returns (s: State)
    ensures Reaches(a, Fresh(3), s) && StoresStay(Fresh(3), s) && s.clock == 0
    ensures IsReady(s, 0, ["a"]) && IsReady(s, 1, ["a", "b"]) && IsReady(s, 2, ["a", "b", "c"])
  {
    var s0 := Fresh(3);
    ReachesItself(a, s0);
    assert Less("a", "b") && Less("b", "c") && Less("a", "c");
    s := OpenStatsTick(a, s0, s0, 0, ["a"]);
    s := OpenStatsTick(a, s0, s, 1, ["a", "b"]);
    s := OpenStatsTick(a, s0, s, 2, ["a", "b", "c"]);
  }

  /** Without timely SET NX, whatever else holds: a stalled process claims a slot again after its lease ran out. */
  lemma LateClaimEnqueuesTwice(a: Assumptions)
    requires !a.timelySets
    ensures exists s: State :: Reaches(a, Fresh(2), s) && s.enqueued[STATS0.key] == 2
  {
    var s0 := Fresh(2);
    var s := OpenTwo(a);
    s := ClaimStats(a, s0, s, 0, ["a"]);
    s := StoreStats(a, s0, s, 0, ["a"]);
    s := SlotGoesBy(a, s0, s);
    s := ClaimStats(a, s0, s, 1, ["a", "b"]);
    s := StoreStats(a, s0, s, 1, ["a", "b"]);
  }

  /**
   * Without single DELs a repeated DEL removes the next holder's claim; a third holder, stalled
   * until the queue has forgotten the task, stores it again.
   */
  lemma RepeatedDelEnqueuesTwice(a: Assumptions)
    requires !a.singleDels && !a.retention.UntilNobodyHolds?
    ensures exists s: State :: Reaches(a, Fresh(3), s) && s.enqueued[STATS0.key] == 2
  {
    var s0, del := Fresh(3), DelMsg(STATS0.key, 0);
    var s := OpenThree(a);
    s := ClaimAndFail(a, s0, s, 0, ["a"], false);
    s := ThenDrifts(a, s0, s, DelLands(del, true));
    s := ClaimStats(a, s0, s, 1, ["a", "b"]);
    s := StoreStats(a, s0, s, 1, ["a", "b"]);
    s := ThenDrifts(a, s0, s, DelLands(del, false));
    s := ClaimStats(a, s0, s, 2, ["a", "b", "c"]);
    s := SlotGoesBy(a, s0, s);
    s := StoreStats(a, s0, s, 2, ["a", "b", "c"]);
  }

  /**
   * Without honest failures a stored task is reported as failed and its claim dropped; the next holder, stalled
   * until the queue has forgotten the task, stores it again. It does not help that the queue knows it to the slot's end.
   */
  lemma FalseFailureEnqueuesTwice(a: Assumptions)
    requires !a.honestFailures && !a.retention.UntilNobodyHolds?
    ensures exists s: State :: Reaches(a, Fresh(2), s) && s.enqueued[STATS0.key] == 2
  {
    var s0 := Fresh(2);
    var s := OpenTwo(a);
    s := ClaimAndFail(a, s0, s, 0, ["a"], true);
    s := ThenDrifts(a, s0, s, DelLands(DelMsg(STATS0.key, 0), false));
    s := ClaimStats(a, s0, s, 1, ["a", "b"]);
    s := SlotGoesBy(a, s0, s);
    s := StoreStats(a, s0, s, 1, ["a", "b"]);
  }

  /** A holder meets a task of its id that is still in the queue. */
  predicate IsInConflict(a: Assumptions, s: State, p: Proc) {
    WorkEnabled(a, s, p, EnqueueConflict)
  }

  lemma HolderMeetsTask(a: Assumptions, s: State, p: Proc, view: seq<string>)
    requires IsHolding(s, p, view) && STATS0.key in s.queue
    ensures IsInConflict(a, s, p)
  {
    assert Now(s, p) == STATS0;
  }

  /** Each assumption is needed for that too. */
  lemma LateClaimConflicts(a: Assumptions)
    requires !a.timelySets
    ensures exists s: State :: Reaches(a, Fresh(2), s) && IsInConflict(a, s, 1)
  {
    var s0 := Fresh(2);
    var s := OpenTwo(a);
    s := ClaimStats(a, s0, s, 0, ["a"]);
    s := StoreStats(a, s0, s, 0, ["a"]);
    s := ThenDrifts(a, s0, s, Passes(HOUR));
    s := ClaimStats(a, s0, s, 1, ["a", "b"]);
    HolderMeetsTask(a, s, 1, ["a", "b"]);
  }

  lemma RepeatedDelConflicts(a: Assumptions)
    requires !a.singleDels
    ensures exists s: State :: Reaches(a, Fresh(3), s) && IsInConflict(a, s, 2)
  {
    var s0, del := Fresh(3), DelMsg(STATS0.key, 0);
    var s := OpenThree(a);
    s := ClaimAndFail(a, s0, s, 0, ["a"], false);
    s := ThenDrifts(a, s0, s, DelLands(del, true));
    s := ClaimStats(a, s0, s, 1, ["a", "b"]);
    s := StoreStats(a, s0, s, 1, ["a", "b"]);
    s := ThenDrifts(a, s0, s, DelLands(del, false));
    s := ClaimStats(a, s0, s, 2, ["a", "b", "c"]);
    HolderMeetsTask(a, s, 2, ["a", "b", "c"]);
  }

  /** Without honest failures an enqueue that is sent again meets its own task. */
  lemma ResentEnqueueConflicts(a: Assumptions)
    requires !a.honestFailures
    ensures exists s: State :: Reaches(a, Fresh(2), s) && IsInConflict(a, s, 0)
  {
    var s0 := Fresh(2);
    var s := OpenTwo(a);
    s := ClaimStats(a, s0, s, 0, ["a"]);
    s := SendAgain(a, s0, s, 0, ["a"]);
    HolderMeetsTask(a, s, 0, ["a"]);
  }

  /** The task is stored but the reply is lost, and the client sends the request again. */
  lemma SendAgain(a: Assumptions, s0: State, s: State, p: Proc, view: seq<string>) returns (s': State)
    requires Reaches(a, s0, s) && IsHolding(s, p, view) && s.queue == {} && !a.honestFailures
    ensures Reaches(a, s0, s') && IsHolding(s', p, view) && STATS0.key in s'.queue
  {
    assert Now(s, p) == STATS0;
    s' := ThenWorks(a, s0, s, p, EnqueueResent);
  }
}
