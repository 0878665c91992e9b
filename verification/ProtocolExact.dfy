/**
 * Exactly which assumptions keep a task from being stored twice. There are two ways: the claims alone, if DELs and
 * failures are what they seem, or the queue alone, if it knows a task as long as somebody may still enqueue it.
 */
module ProtocolExact {
  import opened Base
  import opened Sched
  import opened Protocol
  import opened ProtocolFacts

  // ---- The queue alone ----

  ghost predicate NobodyHolds(procs: Procs, k: Key) {
    forall p :: p in procs ==> !IsHolderOf(procs[p].pc, k)
  }

  /** A stored task is in the queue, or its slot is over and nobody can enqueue it any more. */
  ghost predicate QueueOk(s: State) {
    && (forall k :: k in s.enqueued ==>
          s.enqueued[k] == 1 && (k in s.queue || (s.clock >= k.End() && NobodyHolds(s.procs, k))))
    && (forall k :: k in s.queue ==> k in s.enqueued)
  }

  lemma NoNewHolder(s: State, s': State)
    requires QueueOk(s)
    requires s'.clock >= s.clock && s'.queue == s.queue && s'.enqueued == s.enqueued
    requires forall k, p :: p in s'.procs && IsHolderOf(s'.procs[p].pc, k) ==> p in s.procs && IsHolderOf(s.procs[p].pc, k)
    ensures QueueOk(s')
  {
  }

  lemma MoveMakesNoHolder(s: State, p: Proc, m: Move)
    requires MoveEnabled(s, p, m)
    ensures var s' := MoveStep(s, p, m);
      && s'.clock == s.clock && s'.queue == s.queue && s'.enqueued == s.enqueued
      && forall k, q :: q in s'.procs && IsHolderOf(s'.procs[q].pc, k) ==> q in s.procs && IsHolderOf(s.procs[q].pc, k)
  {
  }

  /** Winning a claim before the slot ends makes a holder of a task the queue still knows, if it was stored. */
  lemma WinningKeepsQueue(s: State, p: Proc)
    requires QueueOk(s) && AtJob(s, p) && s.clock < Now(s, p).key.End()
    ensures QueueOk(Won(s, p))
  {
    var s', won := Won(s, p), Now(s, p).key;
    forall k | k in s'.enqueued ensures k in s'.queue || (s'.clock >= k.End() && NobodyHolds(s'.procs, k)) {
      if k !in s.queue {
        assert k != won && NobodyHolds(s.procs, k);
      }
    }
  }

  /** A holder's task is not stored yet, or the queue knows it. */
  lemma StoringKeepsQueue(s: State, s': State, p: Proc, k: Key)
    requires QueueOk(s) && p in s.procs && IsHolderOf(s.procs[p].pc, k) && k !in s.queue
    requires s'.clock == s.clock && s'.queue == s.queue + {k} && s'.enqueued == s.enqueued + multiset{k}
    requires forall h, q :: q in s'.procs && IsHolderOf(s'.procs[q].pc, h) ==> q in s.procs && IsHolderOf(s.procs[q].pc, h)
    ensures QueueOk(s')
  {
    assert k !in s.enqueued;
  }

  lemma WorkMakesNoHolder(a: Assumptions, s: State, p: Proc, w: Work)
    requires WorkEnabled(a, s, p, w) && !w.ClaimWon?
    ensures var s' := WorkStep(a, s, p, w);
      && s'.clock == s.clock
      && forall k, q :: q in s'.procs && IsHolderOf(s'.procs[q].pc, k) ==> q in s.procs && IsHolderOf(s.procs[q].pc, k)
  {
    assert !WorkStep(a, s, p, w).procs[p].pc.Holding? || WorkStep(a, s, p, w).procs[p] == s.procs[p];
  }

  predicate Stores(w: Work) {
    w.EnqueueOk? || w.EnqueueResent? || (w.EnqueueError? && w.stored)
  }

  lemma WorkStores(a: Assumptions, s: State, p: Proc, w: Work)
    requires WorkEnabled(a, s, p, w)
    ensures var s' := WorkStep(a, s, p, w);
      if Stores(w) then
        && p in s.procs && IsHolderOf(s.procs[p].pc, Now(s, p).key) && Now(s, p).key !in s.queue
        && s'.queue == s.queue + {Now(s, p).key} && s'.enqueued == s.enqueued + multiset{Now(s, p).key}
      else s'.queue == s.queue && s'.enqueued == s.enqueued
  {
  }

  lemma WorkKeepsQueue(a: Assumptions, s: State, p: Proc, w: Work)
    requires QueueOk(s) && WorkEnabled(a, s, p, w) && a.timelySets
    ensures QueueOk(WorkStep(a, s, p, w))
  {
    if w.ClaimWon? {
      WinningKeepsQueue(s, p);
    } else {
      WorkMakesNoHolder(a, s, p, w);
      WorkStores(a, s, p, w);
      if Stores(w) {
        StoringKeepsQueue(s, WorkStep(a, s, p, w), p, Now(s, p).key);
      } else {
        NoNewHolder(s, WorkStep(a, s, p, w));
      }
    }
  }

  lemma DriftKeepsQueue(a: Assumptions, s: State, d: Drift)
    requires QueueOk(s) && DriftEnabled(a, s, d) && a.retention.UntilNobodyHolds?
    ensures QueueOk(DriftStep(a, s, d))
  {
    if d.TaskLeaves? {
      assert NobodyHolds(s.procs, d.k);
    } else {
      DriftLeavesQueue(a, s, d);
      NoNewHolder(s, DriftStep(a, s, d));
    }
  }

  lemma DriftLeavesQueue(a: Assumptions, s: State, d: Drift)
    requires DriftEnabled(a, s, d) && !d.TaskLeaves?
    ensures var s' := DriftStep(a, s, d);
      s'.procs == s.procs && s'.clock >= s.clock && s'.queue == s.queue && s'.enqueued == s.enqueued
  {
    if d.SetLands? {
      assert SetArrives(s, d.request).procs == s.procs && SetArrives(s, d.request).queue == s.queue;
    }
  }

  lemma {:induction false} RunKeepsQueue(a: Assumptions, s0: State, es: seq<Event>)
    requires Init(s0) && Runs(a, s0, es) && a.timelySets && a.retention.UntilNobodyHolds?
    ensures QueueOk(After(a, s0, es))
    decreases |es|
  {
    if es != [] {
      var n := |es| - 1;
      var s := After(a, s0, es[..n]);
      RunKeepsQueue(a, s0, es[..n]);
      match es[n]
      case Moves(p, m) =>
        MoveMakesNoHolder(s, p, m);
        NoNewHolder(s, MoveStep(s, p, m));
      case Works(p, w) => WorkKeepsQueue(a, s, p, w);
      case Drifts(d) => DriftKeepsQueue(a, s, d);
    }
  }

  /** Lost replies, repeated DELs and false failures do no harm while the queue keeps what somebody may still enqueue. */
  lemma RetentionKeepsTasksApart(a: Assumptions, s0: State, es: seq<Event>, k: Key)
    requires Init(s0) && Runs(a, s0, es) && a.timelySets && a.retention.UntilNobodyHolds?
    ensures After(a, s0, es).enqueued[k] <= 1
  {
    RunKeepsQueue(a, s0, es);
    var s := After(a, s0, es);
    if k in s.enqueued {
      assert s.enqueued[k] == 1;
    }
  }

  // ---- The claims alone ----

  lemma StepUnderAssumed(a: Assumptions, s: State, e: Event)
    requires a.timelySets && a.singleDels && a.honestFailures && Enabled(a, s, e)
    ensures Enabled(ASSUMED, s, e) && Step(ASSUMED, s, e) == Step(a, s, e)
  {
    match e
    case Moves(p, m) =>
    case Works(p, w) => assert WorkEnabled(ASSUMED, s, p, w) && WorkStep(ASSUMED, s, p, w) == WorkStep(a, s, p, w);
    case Drifts(d) => assert DriftEnabled(ASSUMED, s, d) && DriftStep(ASSUMED, s, d) == DriftStep(a, s, d);
  }

  /** Whatever the queue's memory, runs under the three other assumptions are runs under the assumed ones. */
  lemma {:induction false} RunUnderAssumed(a: Assumptions, s0: State, es: seq<Event>)
    requires a.timelySets && a.singleDels && a.honestFailures && Runs(a, s0, es)
    ensures Runs(ASSUMED, s0, es) && After(ASSUMED, s0, es) == After(a, s0, es)
    decreases |es|
  {
    if es != [] {
      var n := |es| - 1;
      RunUnderAssumed(a, s0, es[..n]);
      StepUnderAssumed(a, After(a, s0, es[..n]), es[n]);
    }
  }

  // ---- Exactly ----

  /** In every run each task is stored at most once. */
  ghost predicate StoresOnce(a: Assumptions) {
    forall s0: State, es: seq<Event>, k: Key :: Init(s0) && Runs(a, s0, es) ==> After(a, s0, es).enqueued[k] <= 1
  }

  predicate Suffices(a: Assumptions) {
    a.timelySets && (a.retention.UntilNobodyHolds? || (a.singleDels && a.honestFailures))
  }

  lemma FreshIsInit(n: nat)
    ensures Init(Fresh(n))
  {
  }

  lemma TwiceIsNotOnce(a: Assumptions, n: nat)
    requires exists s: State :: Reaches(a, Fresh(n), s) && s.enqueued[STATS0.key] == 2
    ensures !StoresOnce(a)
  {
    var s: State :| Reaches(a, Fresh(n), s) && s.enqueued[STATS0.key] == 2;
    var es :| Runs(a, Fresh(n), es) && After(a, Fresh(n), es) == s;
    FreshIsInit(n);
    assert After(a, Fresh(n), es).enqueued[STATS0.key] == 2;
  }

  /**
   * Each task is stored at most once in every run exactly when SET NX is timely and, besides, either DELs are single and
   * failures honest, or the queue knows a task as long as somebody may still enqueue it. To the slot's end is not enough.
   */
  lemma StoresOnceIff(a: Assumptions)
    ensures StoresOnce(a) <==> Suffices(a)
  {
    if Suffices(a) {
      forall s0: State, es: seq<Event>, k: Key | Init(s0) && Runs(a, s0, es) ensures After(a, s0, es).enqueued[k] <= 1 {
        if a.retention.UntilNobodyHolds? {
          RetentionKeepsTasksApart(a, s0, es, k);
        } else {
          RunUnderAssumed(a, s0, es);
          AtMostOneEnqueue(s0, es, k);
        }
      }
    } else if !a.timelySets {
      LateClaimEnqueuesTwice(a);
      TwiceIsNotOnce(a, 2);
    } else if !a.singleDels {
      RepeatedDelEnqueuesTwice(a);
      TwiceIsNotOnce(a, 3);
    } else {
      FalseFailureEnqueuesTwice(a);
      TwiceIsNotOnce(a, 2);
    }
  }

  /** In no run an enqueue meets a task of its own id. */
  ghost predicate NeverConflicts(a: Assumptions) {
    forall s0: State, es: seq<Event>, p: Proc :: Init(s0) && Runs(a, s0, es) ==> !IsInConflict(a, After(a, s0, es), p)
  }

  lemma ConflictIsNotNever(a: Assumptions, n: nat, p: Proc)
    requires exists s: State :: Reaches(a, Fresh(n), s) && IsInConflict(a, s, p)
    ensures !NeverConflicts(a)
  {
    var s: State :| Reaches(a, Fresh(n), s) && IsInConflict(a, s, p);
    var es :| Runs(a, Fresh(n), es) && After(a, Fresh(n), es) == s;
    FreshIsInit(n);
    assert IsInConflict(a, After(a, Fresh(n), es), p);
  }

  /** The branch for a conflict is dead exactly when claims are timely, DELs single and failures honest. */
  lemma NeverConflictsIff(a: Assumptions)
    ensures NeverConflicts(a) <==> a.timelySets && a.singleDels && a.honestFailures
  {
    if !a.timelySets {
      LateClaimConflicts(a);
      ConflictIsNotNever(a, 2, 1);
    } else if !a.singleDels {
      RepeatedDelConflicts(a);
      ConflictIsNotNever(a, 3, 2);
    } else if !a.honestFailures {
      ResentEnqueueConflicts(a);
      ConflictIsNotNever(a, 2, 0);
    } else {
      forall s0: State, es: seq<Event>, p: Proc | Init(s0) && Runs(a, s0, es)
        ensures !IsInConflict(a, After(a, s0, es), p)
      {
        RunUnderAssumed(a, s0, es);
        NoTaskIdConflict(s0, es, p);
      }
    }
  }
}
