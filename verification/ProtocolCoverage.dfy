/**
 * What the scheduler group achieves: a full set of error-free ticks leaves every
 * active bucket claimed, and a claimed bucket's task is stored unless the
 * claimant was lost on the way.
 */
module ProtocolCoverage {
  import opened Base
  import opened Text
  import opened Sched
  import opened Protocol
  import opened ProtocolFacts

  // ---- What a run has tried and dropped since some moment ----

  /** The key whose SET NX got an answer in this step. */
  function Answers(s: State, e: Event): set<Key> {
    if e.Works? && (e.work.ClaimWon? || e.work.ClaimLost?) && AtJob(s, e.p) then {Now(s, e.p).key} else {}
  }

  /** The keys answered from event n on. */
  ghost function Tries(a: Assumptions, s0: State, es: seq<Event>, n: nat): set<Key>
    requires Runs(a, s0, es)
    decreases |es|
  {
    if |es| <= n then {}
    else
      var m := |es| - 1;
      Tries(a, s0, es[..m], n) + Answers(After(a, s0, es[..m]), es[m])
  }

  predicate IsDelOf(e: Event, k: Key) {
    e.Drifts? && e.drift.DelLands? && e.drift.del.key == k
  }

  /** From event n on, a DEL has removed the key. */
  ghost predicate WasDropped(es: seq<Event>, n: nat, k: Key) {
    exists i :: n <= i < |es| && IsDelOf(es[i], k)
  }

  /** Later than the moment; None is before all times. */
  predicate IsAfter(time: int, moment: Option<int>) {
    moment.None? || time > moment.value
  }

  /** The tick read its view after the moment. */
  predicate Since(t: Tick, moment: Option<int>) {
    IsAfter(t.seen, moment)
  }

  /** The moment of event n. */
  ghost function Moment(a: Assumptions, s0: State, es: seq<Event>, n: nat): Option<int>
    requires Runs(a, s0, es) && n <= |es|
  {
    if n == 0 then None
    else
      PrefixRuns(a, s0, es, n);
      Some(After(a, s0, es[..n]).clock)
  }

  lemma {:induction false} PrefixRuns(a: Assumptions, s0: State, es: seq<Event>, n: nat)
    requires Runs(a, s0, es) && n <= |es|
    ensures Runs(a, s0, es[..n])
    decreases |es|
  {
    if n < |es| {
      PrefixRuns(a, s0, es[..|es| - 1], n);
      assert es[..|es| - 1][..n] == es[..n];
    } else {
      assert es[..n] == es;
    }
  }

  // ---- No view is from the future ----

  predicate SeenBy(clock: int, x: Process) {
    && (x.pc.Viewed? || x.pc.Timed? ==> x.pc.seen <= clock)
    && (x.pc.Working? || x.pc.Holding? || x.pc.Dropping? ==> x.pc.tick.seen <= clock)
    && (x.last.Some? ==> x.last.value.seen <= clock)
  }

  ghost predicate AllSeen(clock: int, procs: Procs) {
    forall p :: p in procs ==> SeenBy(clock, procs[p])
  }

  lemma StepKeepsSeen(a: Assumptions, s: State, e: Event)
    requires AllSeen(s.clock, s.procs) && Enabled(a, s, e)
    ensures AllSeen(Step(a, s, e).clock, Step(a, s, e).procs)
  {
    match e
    case Moves(p, m) => MovesSee(s, p, m);
    case Works(p, w) => WorkAdvances(a, s, p, w);
    case Drifts(d) => DriftsKeepProcs(a, s, d);
  }

  lemma MovesSee(s: State, p: Proc, m: Move)
    requires MoveEnabled(s, p, m) && SeenBy(s.clock, s.procs[p])
    ensures var s' := MoveStep(s, p, m);
      && s'.clock == s.clock && p in s'.procs && s'.procs == s.procs[p := s'.procs[p]] && SeenBy(s'.clock, s'.procs[p])
  {
  }

  // ---- What error-free ticks have tried ----

  /** The jobs a process has got an answer for in its current tick. */
  function Answered(pc: PC): nat {
    match pc
    case Working(_, i) => i
    case Holding(_, i) => i + 1
    case _ => 0
  }

  predicate FromPlan(t: Tick, me: string) {
    t.jobs == Plan(t.now, t.view, me, t.items)
  }

  ghost predicate Tried(t: Tick, n: nat, tries: set<Key>) {
    t.clean ==> forall j :: 0 <= j < n && j < |t.jobs| ==> t.jobs[j].key in tries
  }

  /** What a process has tried in its ticks since the moment is among the tries. */
  ghost predicate TrueToPlan(x: Process, tries: set<Key>, moment: Option<int>) {
    && (x.pc.Working? || x.pc.Holding? || x.pc.Dropping? ==> Since(x.pc.tick, moment) ==>
         && FromPlan(x.pc.tick, x.me) && Tried(x.pc.tick, Answered(x.pc), tries)
         && (x.pc.Dropping? ==> !x.pc.tick.clean))
    && (x.last.Some? ==> Since(x.last.value, moment) ==>
         FromPlan(x.last.value, x.me) && Tried(x.last.value, |x.last.value.jobs|, tries))
  }

  ghost predicate AllTrue(procs: Procs, tries: set<Key>, moment: Option<int>) {
    forall p :: p in procs ==> TrueToPlan(procs[p], tries, moment)
  }

  lemma OneIsTrue(procs: Procs, p: Proc, x: Process, tries: set<Key>, tries': set<Key>, moment: Option<int>)
    requires AllTrue(procs, tries, moment) && tries <= tries' && TrueToPlan(x, tries', moment)
    ensures AllTrue(procs[p := x], tries', moment)
  {
  }

  lemma StepKeepsTruth(a: Assumptions, s: State, e: Event, tries: set<Key>, moment: Option<int>)
    requires AllTrue(s.procs, tries, moment) && Enabled(a, s, e)
    ensures AllTrue(Step(a, s, e).procs, tries + Answers(s, e), moment)
  {
    var s', tries' := Step(a, s, e), tries + Answers(s, e);
    match e
    case Moves(p, m) =>
      MovesAreTrue(s, p, m, tries, moment);
      OneIsTrue(s.procs, p, s'.procs[p], tries, tries', moment);
    case Works(p, w) =>
      WorksAreTrue(a, s, p, w, tries, moment);
      OneIsTrue(s.procs, p, s'.procs[p], tries, tries', moment);
    case Drifts(d) =>
      DriftsKeepProcs(a, s, d);
  }

  lemma MovesAreTrue(s: State, p: Proc, m: Move, tries: set<Key>, moment: Option<int>)
    requires MoveEnabled(s, p, m) && TrueToPlan(s.procs[p], tries, moment)
    ensures var s' := MoveStep(s, p, m);
      p in s'.procs && s'.procs == s.procs[p := s'.procs[p]] && TrueToPlan(s'.procs[p], tries, moment)
  {
  }

  lemma WorksAreTrue(a: Assumptions, s: State, p: Proc, w: Work, tries: set<Key>, moment: Option<int>)
    requires WorkEnabled(a, s, p, w) && TrueToPlan(s.procs[p], tries, moment)
    ensures var s' := WorkStep(a, s, p, w);
      && p in s'.procs && s'.procs == s.procs[p := s'.procs[p]]
      && TrueToPlan(s'.procs[p], tries + Answers(s, Works(p, w)), moment)
  {
    WorkAdvances(a, s, p, w);
    assert s.procs[p].pc.Working? ==> w.ClaimError? || w.ClaimResent? || Now(s, p).key in Answers(s, Works(p, w));
  }

  /** Work keeps the plan, and either goes on with the tick one answer further or spoils it. */
  lemma WorkAdvances(a: Assumptions, s: State, p: Proc, w: Work)
    requires WorkEnabled(a, s, p, w)
    ensures var s' := WorkStep(a, s, p, w); s'.clock == s.clock && p in s'.procs && s'.procs == s.procs[p := s'.procs[p]]
    ensures var (x, x') := (s.procs[p], WorkStep(a, s, p, w).procs[p]);
      && x'.me == x.me && x'.last == x.last
      && (x.pc.Working? || x.pc.Holding? || x.pc.Dropping?) && (x'.pc.Working? || x'.pc.Holding? || x'.pc.Dropping?)
      && ((x'.pc.tick == x.pc.tick && !x'.pc.Dropping?
           && (x.pc.Dropping? || Answered(x'.pc) == Answered(x.pc) + if x.pc.Working? && !w.ClaimResent? then 1 else 0))
          || x'.pc.tick == x.pc.tick.(clean := false))
      && (w.ClaimError? ==> !x'.pc.tick.clean)
  {
    match w
    case ClaimWon => assert Won(s, p).procs == s.procs[p := Won(s, p).procs[p]];
    case ClaimLost => assert NextJob(s, p).procs == s.procs[p := NextJob(s, p).procs[p]];
    case ClaimError(sent) => assert Unanswered(s, p, sent).procs == s.procs[p := Unanswered(s, p, sent).procs[p]];
    case SendDrop => assert Dropped(s, p).procs == s.procs[p := Dropped(s, p).procs[p]];
    case _ =>
  }

  lemma DriftsKeepProcs(a: Assumptions, s: State, d: Drift)
    requires DriftEnabled(a, s, d)
    ensures DriftStep(a, s, d).procs == s.procs && DriftStep(a, s, d).clock >= s.clock
  {
    if d.SetLands? {
      assert SetArrives(s, d.request).procs == s.procs;
    }
  }

  /** A key that is answered is claimed afterwards, and only a DEL of it makes a claim go. */
  lemma StepKeepsClaims(a: Assumptions, s: State, e: Event)
    requires Enabled(a, s, e)
    ensures Answers(s, e) <= Step(a, s, e).claims.Keys
    ensures forall k :: k in s.claims && !IsDelOf(e, k) ==> k in Step(a, s, e).claims
  {
    match e
    case Moves(p, m) => MoveLeavesClaims(s, p, m);
    case Works(p, w) => WorkGrowsClaims(a, s, p, w);
    case Drifts(d) => DriftKeepsClaims(a, s, d);
  }

  lemma WorkGrowsClaims(a: Assumptions, s: State, p: Proc, w: Work)
    requires WorkEnabled(a, s, p, w)
    ensures s.claims.Keys + Answers(s, Works(p, w)) <= WorkStep(a, s, p, w).claims.Keys
  {
  }

  lemma DriftKeepsClaims(a: Assumptions, s: State, d: Drift)
    requires DriftEnabled(a, s, d)
    ensures forall k :: k in s.claims && !IsDelOf(Drifts(d), k) ==> k in DriftStep(a, s, d).claims
  {
  }

  // ---- Whole runs ----

  lemma {:induction false} RunSeesNoFuture(a: Assumptions, s0: State, es: seq<Event>)
    requires Init(s0) && Runs(a, s0, es)
    ensures AllSeen(After(a, s0, es).clock, After(a, s0, es).procs)
    decreases |es|
  {
    if es != [] {
      var n := |es| - 1;
      RunSeesNoFuture(a, s0, es[..n]);
      StepKeepsSeen(a, After(a, s0, es[..n]), es[n]);
    }
  }

  lemma {:induction false} RunIsTrueSince(a: Assumptions, s0: State, es: seq<Event>, n: nat)
    requires Init(s0) && Runs(a, s0, es) && n <= |es|
    ensures AllTrue(After(a, s0, es).procs, Tries(a, s0, es, n), Moment(a, s0, es, n))
    ensures forall k :: k in Tries(a, s0, es, n) ==> k in After(a, s0, es).claims || WasDropped(es, n, k)
    decreases |es|
  {
    if |es| == n {
      assert es[..n] == es;
      RunSeesNoFuture(a, s0, es);
    } else {
      var m := |es| - 1;
      assert es[..m][..n] == es[..n];
      RunIsTrueSince(a, s0, es[..m], n);
      StepKeepsTruth(a, After(a, s0, es[..m]), es[m], Tries(a, s0, es[..m], n), Moment(a, s0, es, n));
      TriesStayClaimed(a, s0, es[..m], es, n);
    }
  }

  lemma TriesStayClaimed(a: Assumptions, s0: State, front: seq<Event>, es: seq<Event>, n: nat)
    requires Runs(a, s0, es) && n < |es| && front == es[..|es| - 1]
    requires forall k :: k in Tries(a, s0, front, n) ==> k in After(a, s0, front).claims || WasDropped(front, n, k)
    ensures forall k :: k in Tries(a, s0, es, n) ==> k in After(a, s0, es).claims || WasDropped(es, n, k)
  {
    var m := |es| - 1;
    StepKeepsClaims(a, After(a, s0, front), es[m]);
    forall k | k in Tries(a, s0, es, n) ensures k in After(a, s0, es).claims || WasDropped(es, n, k) {
      if WasDropped(front, n, k) {
        var i :| n <= i < m && IsDelOf(front[i], k);
        assert IsDelOf(es[i], k);
      } else if IsDelOf(es[m], k) {
        assert WasDropped(es, n, k);
      }
    }
  }

  // ---- Coverage ----

  /** The last tick of the process was error-free, listed bucket b, fell in the slot, and saw V after the moment. */
  predicate Covers(x: Process, V: seq<string>, b: int, kind: Kind, slot: int, moment: Option<int>) {
    && x.last.Some? && x.last.value.clean && Since(x.last.value, moment) && x.last.value.view == V
    && x.last.value.items.Some? && b in x.last.value.items.value
    && SlotStart(x.last.value.now, kind.Interval()) == slot
  }

  /** The state after the first i events. */
  ghost function At(a: Assumptions, s0: State, es: seq<Event>, i: nat): State
    requires Runs(a, s0, es) && i <= |es|
  {
    PrefixRuns(a, s0, es, i);
    After(a, s0, es[..i])
  }

  lemma {:induction false} TriesGrow(a: Assumptions, s0: State, es: seq<Event>, n: nat, i: nat)
    requires Runs(a, s0, es) && n <= i <= |es| && Runs(a, s0, es[..i])
    ensures Tries(a, s0, es[..i], n) <= Tries(a, s0, es, n)
    ensures Moment(a, s0, es[..i], n) == Moment(a, s0, es, n)
    decreases |es|
  {
    assert es[..i][..n] == es[..n];
    if i < |es| {
      var m := |es| - 1;
      assert es[..m][..i] == es[..i];
      TriesGrow(a, s0, es[..m], n, i);
    } else {
      assert es[..i] == es;
    }
  }

  /**
   * A bucket's owner claims it: once it has finished an error-free tick over the bucket, be it the latest or not, the
   * bucket is claimed, even if an earlier claim was dropped, unless a DEL has landed since the moment the tick began
   * after.
   */
  lemma OwnersTickClaims(a: Assumptions, s0: State, es: seq<Event>, n: nat, i: nat, p: Proc, V: seq<string>, b: int,
        kind: Kind, slot: int)
    requires Init(s0) && Runs(a, s0, es) && n <= i <= |es| && kind != Stats && p in At(a, s0, es, i).procs
    requires Covers(At(a, s0, es, i).procs[p], V, b, kind, slot, Moment(a, s0, es, n))
    requires Mine(b, V, At(a, s0, es, i).procs[p].me)
    ensures var k := Key(slot, kind, BucketId(b)); k in After(a, s0, es).claims || WasDropped(es, n, k)
  {
    var front := es[..i];
    PrefixRuns(a, s0, es, i);
    TriesGrow(a, s0, es, n, i);
    RunIsTrueSince(a, s0, front, n);
    OwnBucketIsTried(After(a, s0, front).procs[p], Tries(a, s0, front, n), V, b, kind, slot, Moment(a, s0, es, n));
    RunIsTrueSince(a, s0, es, n);
  }

  lemma OwnBucketIsTried(x: Process, tries: set<Key>, V: seq<string>, b: int, kind: Kind, slot: int,
        moment: Option<int>)
    requires TrueToPlan(x, tries, moment) && Covers(x, V, b, kind, slot, moment) && Mine(b, V, x.me) && kind != Stats
    ensures Key(slot, kind, BucketId(b)) in tries
  {
    var t := x.last.value;
    OwnedBucketIsPlanned(kind, t.now, V, x.me, t.items.value, b);
    var job := JobFor(kind, t.now, BucketId(b));
    assert job in Plan(t.now, V, x.me, t.items);
    var j :| 0 <= j < |t.jobs| && t.jobs[j] == job;
    assert t.jobs[j].key in tries;
  }

  lemma {:induction false} OwnedBucketIsPlanned(kind: Kind, now: int, view: seq<string>, me: string, items: seq<int>,
        b: int)
    ensures JobFor(kind, now, BucketId(b)) in BucketJobs(kind, now, view, me, items) <==>
      (b in items && Mine(b, view, me))
  {
    if items != [] {
      OwnedBucketIsPlanned(kind, now, view, me, items[1..], b);
      assert items == [items[0]] + items[1..];
    }
  }

  /** At some point from event n on, a process of that name had just covered the bucket. */
  ghost predicate IsCovered(a: Assumptions, s0: State, es: seq<Event>, n: nat, m: string, V: seq<string>, b: int,
        kind: Kind, slot: int)
    requires Runs(a, s0, es) && n <= |es|
  {
    exists i: nat, p: Proc :: n <= i <= |es| && p in At(a, s0, es, i).procs && At(a, s0, es, i).procs[p].me == m
      && Covers(At(a, s0, es, i).procs[p], V, b, kind, slot, Moment(a, s0, es, n))
  }

  /**
   * When every member of a group has, at one time or another since some moment, finished an error-free tick in a slot
   * seeing exactly that group, every bucket they list is claimed for the slot. Nothing is assumed of the history or
   * of what came after those ticks: processes may have failed, crashed or disagreed. The one way out is a DEL
   * since the moment after which the ticks began.
   */
  lemma EveryBucketIsClaimed(a: Assumptions, s0: State, es: seq<Event>, n: nat, V: seq<string>, b: int, kind: Kind,
        slot: int)
    requires Init(s0) && Runs(a, s0, es) && n <= |es| && Ascending(V) && V != [] && kind != Stats
    requires forall m :: m in V ==> IsCovered(a, s0, es, n, m, V, b, kind, slot)
    ensures var k := Key(slot, kind, BucketId(b)); k in After(a, s0, es).claims || WasDropped(es, n, k)
  {
    ShardingIsAPartition(b, V);
    var m :| m in V && Mine(b, V, m);
    var i: nat, p: Proc :| n <= i <= |es| && p in At(a, s0, es, i).procs && At(a, s0, es, i).procs[p].me == m
      && Covers(At(a, s0, es, i).procs[p], V, b, kind, slot, Moment(a, s0, es, n));
    OwnersTickClaims(a, s0, es, n, i, p, V, b, kind, slot);
  }

  // ---- What becomes of a claim ----

  ghost predicate InHand(procs: Procs, dels: multiset<DelMsg>, k: Key) {
    || (exists p :: p in procs && Busy(procs[p].pc) == Some(k))
    || (exists m :: m in dels && m.key == k)
  }

  ghost predicate FatesOk(s: State) {
    forall k :: k in s.claims ==> k in s.enqueued || k in s.orphaned || InHand(s.procs, s.dels, k)
  }

  lemma MoveKeepsFates(s: State, p: Proc, m: Move)
    requires FatesOk(s) && MoveEnabled(s, p, m)
    ensures FatesOk(MoveStep(s, p, m))
  {
    var s' := MoveStep(s, p, m);
    MoveLeavesClaims(s, p, m);
    MoveShape(s, p, m);
    forall k | k in s'.claims ensures k in s'.enqueued || k in s'.orphaned || InHand(s'.procs, s'.dels, k) {
      if k !in s.enqueued && k !in s.orphaned {
        OthersStayInHand(s.procs, s'.procs, s.dels, s'.dels, p, k);
      }
    }
  }

  lemma MoveShape(s: State, p: Proc, m: Move)
    requires MoveEnabled(s, p, m)
    ensures var s' := MoveStep(s, p, m);
      && p in s'.procs && s'.procs == s.procs[p := s'.procs[p]] && s'.dels == s.dels && s'.enqueued == s.enqueued
      && s.orphaned <= s'.orphaned
      && (Busy(s.procs[p].pc).Some? ==> Busy(s'.procs[p].pc) == Busy(s.procs[p].pc) || Busy(s.procs[p].pc).value in s'.orphaned)
  {
  }

  lemma OthersStayInHand(procs: Procs, procs': Procs, dels: multiset<DelMsg>, dels': multiset<DelMsg>, p: Proc, k: Key)
    requires p in procs' && procs' == procs[p := procs'[p]] && InHand(procs, dels, k)
    requires forall m :: m in dels && m.key == k ==> m in dels'
    ensures (p in procs && Busy(procs[p].pc) == Some(k)) || InHand(procs', dels', k)
  {
    if q :| q in procs && Busy(procs[q].pc) == Some(k) {
      assert q != p ==> q in procs' && procs'[q] == procs[q];
    } else {
      var m :| m in dels && m.key == k;
      assert m in dels';
    }
  }

  lemma WorkKeepsFates(s: State, p: Proc, w: Work)
    requires Inv(s) && FatesOk(s) && WorkEnabled(ASSUMED, s, p, w)
    ensures FatesOk(WorkStep(ASSUMED, s, p, w))
  {
    var s' := WorkStep(ASSUMED, s, p, w);
    WorkShape(s, p, w);
    forall k | k in s'.claims ensures k in s'.enqueued || k in s'.orphaned || InHand(s'.procs, s'.dels, k) {
      if Busy(s'.procs[p].pc) == Some(k) {
        assert p in s'.procs;
      } else if k !in s.enqueued && k !in s.orphaned {
        OthersStayInHand(s.procs, s'.procs, s.dels, s'.dels, p, k);
        if Busy(s.procs[p].pc) == Some(k) && DelMsg(k, p) in s'.dels {
          assert InHand(s'.procs, s'.dels, k);
        }
      }
    }
  }

  lemma WorkShape(s: State, p: Proc, w: Work)
    requires WorkEnabled(ASSUMED, s, p, w)
    requires TasksOk(s.claims, s.enqueued, s.queue, s.orphaned)
    ensures var (s', k) := (WorkStep(ASSUMED, s, p, w), Now(s, p).key);
      && p in s'.procs && s'.procs == s.procs[p := s'.procs[p]] && s'.orphaned == s.orphaned
      && (forall m :: m in s.dels ==> m in s'.dels)
      && (forall q :: q in s.enqueued ==> q in s'.enqueued)
      && (forall q :: q in s'.claims ==> q in s.claims || Busy(s'.procs[p].pc) == Some(q))
      && (Busy(s.procs[p].pc) == Some(k) ==>
            k in s'.enqueued || DelMsg(k, p) in s'.dels || Busy(s'.procs[p].pc) == Some(k))
      && (Busy(s.procs[p].pc).Some? ==> Busy(s.procs[p].pc) == Some(k))
  {
    WorkAdvances(ASSUMED, s, p, w);
    WorkOnlyAdds(s, p, w);
    WorkIsBusy(s, p, w);
  }

  lemma WorkOnlyAdds(s: State, p: Proc, w: Work)
    requires WorkEnabled(ASSUMED, s, p, w)
    ensures var s' := WorkStep(ASSUMED, s, p, w);
      && s'.orphaned == s.orphaned
      && (forall m :: m in s.dels ==> m in s'.dels)
      && (forall q :: q in s.enqueued ==> q in s'.enqueued)
  {
  }

  lemma WorkIsBusy(s: State, p: Proc, w: Work)
    requires WorkEnabled(ASSUMED, s, p, w)
    requires TasksOk(s.claims, s.enqueued, s.queue, s.orphaned)
    ensures var (s', k) := (WorkStep(ASSUMED, s, p, w), Now(s, p).key);
      && p in s'.procs
      && (forall q :: q in s'.claims ==> q in s.claims || Busy(s'.procs[p].pc) == Some(q))
      && (Busy(s.procs[p].pc) == Some(k) ==>
            k in s'.enqueued || DelMsg(k, p) in s'.dels || Busy(s'.procs[p].pc) == Some(k))
      && (Busy(s.procs[p].pc).Some? ==> Busy(s.procs[p].pc) == Some(k))
  {
  }

  lemma DriftKeepsFates(s: State, d: Drift)
    requires Inv(s) && FatesOk(s) && DriftEnabled(ASSUMED, s, d)
    ensures FatesOk(DriftStep(ASSUMED, s, d))
  {
    var s' := DriftStep(ASSUMED, s, d);
    DriftShape(s, d);
    forall k | k in s'.claims ensures k in s'.enqueued || k in s'.orphaned || InHand(s'.procs, s'.dels, k) {
      if k in s.claims && k !in s.enqueued && k !in s'.orphaned {
        if q :| q in s.procs && Busy(s.procs[q].pc) == Some(k) {
          assert q in s'.procs;
        } else {
          var m :| m in s.dels && m.key == k;
          assert m in s'.dels;
        }
      }
    }
  }

  lemma DriftShape(s: State, d: Drift)
    requires DriftEnabled(ASSUMED, s, d)
    ensures var s' := DriftStep(ASSUMED, s, d);
      && s'.procs == s.procs && s'.enqueued == s.enqueued && s.orphaned <= s'.orphaned
      && (forall k :: k in s'.claims ==> k in s.claims || k in s'.orphaned)
      && (forall m :: m in s.dels && m.key in s'.claims ==> m in s'.dels || m.key in s'.orphaned)
  {
    if d.SetLands? {
      SetShape(s, d.request);
    } else if d.DelLands? {
      DelShape(s, d.del);
    }
  }

  lemma SetShape(s: State, m: SetMsg)
    ensures var s' := SetArrives(s, m);
      && s'.procs == s.procs && s'.enqueued == s.enqueued && s.orphaned <= s'.orphaned && s'.dels == s.dels
      && forall k :: k in s'.claims ==> k in s.claims || k in s'.orphaned
  {
  }

  lemma DelShape(s: State, m: DelMsg)
    ensures var s' := DelArrives(s, m, false);
      && s'.procs == s.procs && s'.enqueued == s.enqueued && s'.orphaned == s.orphaned
      && s'.claims.Keys == s.claims.Keys - {m.key}
      && forall d :: d in s.dels && d.key != m.key ==> d in s'.dels
  {
  }

  lemma {:induction false} RunKeepsFates(s0: State, es: seq<Event>)
    requires Init(s0) && Runs(ASSUMED, s0, es)
    ensures FatesOk(After(ASSUMED, s0, es))
    decreases |es|
  {
    if es != [] {
      var n := |es| - 1;
      var s := After(ASSUMED, s0, es[..n]);
      RunKeepsFates(s0, es[..n]);
      RunKeepsInv(s0, es[..n]);
      match es[n]
      case Moves(p, m) => MoveKeepsFates(s, p, m);
      case Works(p, w) => WorkKeepsFates(s, p, w);
      case Drifts(d) => DriftKeepsFates(s, d);
    }
  }

  /**
   * Once nobody is working on a claimed bucket, its task was stored exactly once
   * if and only if the claim was not orphaned: by a crash between SET NX and
   * enqueue, by a SET NX whose reply was lost, so that its caller gave up or, having
   * sent it again, was told that the key is taken, or by a DEL that never arrived.
   */
  lemma SettledClaimIsStoredOnceUnlessOrphaned(s0: State, es: seq<Event>, k: Key)
    requires Init(s0) && Runs(ASSUMED, s0, es)
    requires k in After(ASSUMED, s0, es).claims
    requires !InHand(After(ASSUMED, s0, es).procs, After(ASSUMED, s0, es).dels, k)
    ensures After(ASSUMED, s0, es).enqueued[k] == 1 <==> k !in After(ASSUMED, s0, es).orphaned
  {
    RunKeepsInv(s0, es);
    RunKeepsFates(s0, es);
    var s := After(ASSUMED, s0, es);
    assert TasksOk(s.claims, s.enqueued, s.queue, s.orphaned);
  }

  /**
   * Both together, whatever was dropped and retried before: once nobody is working on bucket b, its task was
   * stored exactly once if it is claimed and the claim not orphaned, and never otherwise; and it is claimed if a
   * whole group finished error-free ticks, at whatever times, and no DEL has landed since the moment they began after.
   */
  lemma GroupStoresEachTaskOnce(s0: State, es: seq<Event>, n: nat, V: seq<string>, b: int, kind: Kind, slot: int)
    requires Init(s0) && Runs(ASSUMED, s0, es) && n <= |es| && Ascending(V) && V != [] && kind != Stats
    requires forall m :: m in V ==> IsCovered(ASSUMED, s0, es, n, m, V, b, kind, slot)
    requires !InHand(After(ASSUMED, s0, es).procs, After(ASSUMED, s0, es).dels, Key(slot, kind, BucketId(b)))
    ensures var (s, k) := (After(ASSUMED, s0, es), Key(slot, kind, BucketId(b)));
      && s.enqueued[k] == (if k in s.claims && k !in s.orphaned then 1 else 0)
      && (k in s.claims || WasDropped(es, n, k))
  {
    var (s, k) := (After(ASSUMED, s0, es), Key(slot, kind, BucketId(b)));
    EveryBucketIsClaimed(ASSUMED, s0, es, n, V, b, kind, slot);
    AtMostOneEnqueue(s0, es, k);
    if k in s.claims {
      SettledClaimIsStoredOnceUnlessOrphaned(s0, es, k);
    } else {
      RunKeepsInv(s0, es);
      assert TasksOk(s.claims, s.enqueued, s.queue, s.orphaned);
    }
  }
}
