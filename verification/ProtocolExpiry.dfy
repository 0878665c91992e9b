/** Nothing in Redis needs clearing up: heartbeats and claims run out by themselves. */
module ProtocolExpiry {
  import opened Base
  import opened Sched
  import opened Protocol
  import opened ProtocolCoverage
  import opened ProtocolViews

  // ---- Heartbeats ----

  /** A heartbeat under the name is set, whether or not its sender learns of it. */
  predicate IsBeatOf(s: State, e: Event, m: string) {
    e.Moves? && (e.move == Beat || e.move == BeatFails(true)) && e.p in s.procs && s.procs[e.p].me == m
  }

  /** From event n on there is no heartbeat under the name. */
  ghost predicate IsSilentSince(a: Assumptions, s0: State, es: seq<Event>, n: nat, m: string)
    requires Runs(a, s0, es)
    decreases |es|
  {
    |es| <= n ||
    (var k := |es| - 1;
     IsSilentSince(a, s0, es[..k], n, m) && !IsBeatOf(After(a, s0, es[..k]), es[k], m))
  }

  lemma MovesBeat(s: State, p: Proc, move: Move, m: string)
    requires MoveEnabled(s, p, move)
    ensures var (s', e) := (MoveStep(s, p, move), Moves(p, move));
      && s'.clock == s.clock
      && (m in s'.beats <==> m in s.beats || IsBeatOf(s, e, m))
      && (m in s'.beats ==> s'.beats[m] == if IsBeatOf(s, e, m) then s.clock + 15_000_000_000 else s.beats[m])
  {
  }

  lemma WorkBeatsNot(a: Assumptions, s: State, p: Proc, w: Work)
    requires WorkEnabled(a, s, p, w)
    ensures WorkStep(a, s, p, w).beats == s.beats
  {
  }

  lemma DriftBeatsNot(a: Assumptions, s: State, d: Drift)
    requires DriftEnabled(a, s, d)
    ensures DriftStep(a, s, d).beats == s.beats
  {
    match d
    case SetLands(m) => assert SetArrives(s, m).beats == s.beats;
    case DelLands(m, again) => assert DelArrives(s, m, again).beats == s.beats;
    case _ =>
  }

  lemma StepBeats(a: Assumptions, s: State, e: Event, m: string)
    requires Enabled(a, s, e)
    ensures var s' := Step(a, s, e);
      && (IsBeatOf(s, e, m) ==> s'.clock == s.clock)
      && (m in s'.beats <==> m in s.beats || IsBeatOf(s, e, m))
      && (m in s'.beats ==> s'.beats[m] == if IsBeatOf(s, e, m) then s.clock + 15_000_000_000 else s.beats[m])
  {
    match e
    case Moves(p, move) => MovesBeat(s, p, move, m);
    case Works(p, w) => WorkBeatsNot(a, s, p, w);
    case Drifts(d) => DriftBeatsNot(a, s, d);
  }

  lemma {:induction false} BeatStays(a: Assumptions, s0: State, es: seq<Event>, n: nat, m: string)
    requires Runs(a, s0, es) && n <= |es| && IsSilentSince(a, s0, es, n, m)
    ensures Runs(a, s0, es[..n])
    ensures var (was, s) := (After(a, s0, es[..n]), After(a, s0, es));
      (m in s.beats <==> m in was.beats) && (m in s.beats ==> s.beats[m] == was.beats[m])
    decreases |es|
  {
    if n < |es| {
      var k := |es| - 1;
      BeatStays(a, s0, es[..k], n, m);
      StepBeats(a, After(a, s0, es[..k]), es[k], m);
      assert es[..k][..n] == es[..n];
    } else {
      assert es[..n] == es;
    }
  }

  /** A member is seen for just fifteen seconds after its last heartbeat, and never without one. */
  lemma HeartbeatsLastFifteenSeconds(a: Assumptions, s0: State, es: seq<Event>, n: nat, m: string)
    requires Init(s0) && Runs(a, s0, es) && n <= |es| && m != "" && IsSilentSince(a, s0, es, n, m)
    requires n > 0 ==> Runs(a, s0, es[..n - 1]) && IsBeatOf(After(a, s0, es[..n - 1]), es[n - 1], m)
    ensures m in LiveNames(After(a, s0, es)) <==>
      n > 0 && After(a, s0, es).clock - At(a, s0, es, n).clock < 15_000_000_000
  {
    BeatStays(a, s0, es, n, m);
    if n > 0 {
      assert es[..n][..n - 1] == es[..n - 1] && es[..n][n - 1] == es[n - 1];
      StepBeats(a, After(a, s0, es[..n - 1]), es[n - 1], m);
    }
  }

  /** The process is in a tick, from the heartbeat on. */
  predicate IsUp(pc: PC) {
    pc != Idle && pc != Down
  }

  ghost predicate AllAnnounced(s: State) {
    forall p :: p in s.procs && IsUp(s.procs[p].pc) ==> s.procs[p].me in s.beats
  }

  lemma MoveAnnounces(s: State, p: Proc, m: Move)
    requires MoveEnabled(s, p, m)
    ensures var (s', x, e) := (MoveStep(s, p, m), s.procs[p], Moves(p, m));
      && p in s'.procs && s'.procs == s.procs[p := s'.procs[p]] && s'.procs[p].me == x.me
      && (IsUp(s'.procs[p].pc) ==> IsUp(x.pc) || IsBeatOf(s, e, x.me))
  {
  }

  lemma WorkAnnounces(a: Assumptions, s: State, p: Proc, w: Work)
    requires WorkEnabled(a, s, p, w)
    ensures var s' := WorkStep(a, s, p, w);
      p in s.procs && IsUp(s.procs[p].pc) && s'.procs.Keys == s.procs.Keys && forall q :: q in s.procs ==>
        s'.procs[q].me == s.procs[q].me && (q != p ==> s'.procs[q] == s.procs[q])
  {
    WorkAdvances(a, s, p, w);
  }

  /** Nobody reads the view, claims or enqueues before it has announced itself. */
  lemma {:induction false} NobodyWorksUnannounced(a: Assumptions, s0: State, es: seq<Event>)
    requires Init(s0) && Runs(a, s0, es)
    ensures AllAnnounced(After(a, s0, es))
    decreases |es|
  {
    if es != [] {
      var n := |es| - 1;
      NobodyWorksUnannounced(a, s0, es[..n]);
      StepAnnounces(a, After(a, s0, es[..n]), es[n]);
    }
  }

  lemma StepAnnounces(a: Assumptions, s: State, e: Event)
    requires Enabled(a, s, e) && AllAnnounced(s)
    ensures AllAnnounced(Step(a, s, e))
  {
    forall p | p in s.procs ensures s.procs[p].me in s.beats ==> s.procs[p].me in Step(a, s, e).beats {
      StepBeats(a, s, e, s.procs[p].me);
    }
    match e
    case Moves(p, m) =>
      MoveAnnounces(s, p, m);
      StepBeats(a, s, e, s.procs[p].me);
    case Works(p, w) => WorkAnnounces(a, s, p, w);
    case Drifts(d) => DriftsKeepProcs(a, s, d);
  }

  // ---- Claims ----

  ghost predicate JobsAreShort(jobs: seq<Job>) {
    forall j :: j in jobs ==> j.ttl <= j.key.kind.Interval()
  }

  ghost predicate TickIsShort(pc: PC) {
    pc.Working? || pc.Holding? || pc.Dropping? ==> JobsAreShort(pc.tick.jobs)
  }

  ghost predicate TicksAreShort(procs: Procs) {
    forall p :: p in procs ==> TickIsShort(procs[p].pc)
  }

  ghost predicate SetsAreShort(sets: multiset<SetMsg>) {
    forall m :: m in sets ==> m.ttl <= m.key.kind.Interval()
  }

  /** No claim outlives its slot by more than another. */
  ghost predicate ClaimsEnd(claims: Claims) {
    forall k :: k in claims ==> claims[k].expiry < k.End() + k.kind.Interval()
  }

  ghost predicate AllEnds(s: State) {
    TicksAreShort(s.procs) && SetsAreShort(s.sets) && ClaimsEnd(s.claims)
  }

  lemma PlanIsShort(now: int, view: seq<string>, me: string, items: Option<seq<int>>)
    ensures JobsAreShort(Plan(now, view, me, items))
  {
    SlotsTileTime(now, now, Stats.Interval());
    if items.Some? {
      BucketJobsAreShort(Inventory, now, view, me, items.value);
      BucketJobsAreShort(Trash, now, view, me, items.value);
      BucketJobsAreShort(Versions, now, view, me, items.value);
      BucketJobsAreShort(Multipart, now, view, me, items.value);
    }
  }

  lemma {:induction false} BucketJobsAreShort(kind: Kind, now: int, view: seq<string>, me: string, items: seq<int>)
    ensures JobsAreShort(BucketJobs(kind, now, view, me, items))
  {
    SlotsTileTime(now, now, kind.Interval());
    if items != [] {
      BucketJobsAreShort(kind, now, view, me, items[1..]);
    }
  }

  lemma MoveEnds(s: State, p: Proc, m: Move)
    requires MoveEnabled(s, p, m) && TickIsShort(s.procs[p].pc)
    ensures var s' := MoveStep(s, p, m);
      && p in s'.procs && s'.procs == s.procs[p := s'.procs[p]] && TickIsShort(s'.procs[p].pc)
      && s'.sets == s.sets && s'.claims == s.claims
  {
    if m.ListBuckets? {
      PlanIsShort(s.procs[p].pc.now, s.procs[p].pc.view, s.procs[p].me, m.items);
    }
  }

  lemma WorkEnds(a: Assumptions, s: State, p: Proc, w: Work)
    requires WorkEnabled(a, s, p, w) && a.timelySets && TickIsShort(s.procs[p].pc) && SetsAreShort(s.sets) && ClaimsEnd(s.claims)
    ensures var s' := WorkStep(a, s, p, w); SetsAreShort(s'.sets) && ClaimsEnd(s'.claims)
  {
    if w.ClaimWon? || w.ClaimError? || w.ClaimResent? {
      assert Now(s, p) in s.procs[p].pc.tick.jobs;
    }
  }

  lemma DriftEnds(a: Assumptions, s: State, d: Drift)
    requires DriftEnabled(a, s, d) && a.timelySets && SetsAreShort(s.sets) && ClaimsEnd(s.claims)
    ensures var s' := DriftStep(a, s, d); s'.procs == s.procs && SetsAreShort(s'.sets) && ClaimsEnd(s'.claims)
  {
    match d
    case SetLands(m) => SetEnds(s, m);
    case DelLands(m, again) => DelEnds(s, m, again);
    case _ =>
  }

  lemma SetEnds(s: State, m: SetMsg)
    requires m in s.sets && s.clock < m.key.End() && SetsAreShort(s.sets) && ClaimsEnd(s.claims)
    ensures var s' := SetArrives(s, m); s'.procs == s.procs && SetsAreShort(s'.sets) && ClaimsEnd(s'.claims)
  {
  }

  lemma DelEnds(s: State, m: DelMsg, again: bool)
    requires ClaimsEnd(s.claims)
    ensures var s' := DelArrives(s, m, again); s'.procs == s.procs && s'.sets == s.sets && ClaimsEnd(s'.claims)
  {
  }

  lemma StepEnds(a: Assumptions, s: State, e: Event)
    requires Enabled(a, s, e) && a.timelySets && AllEnds(s)
    ensures AllEnds(Step(a, s, e))
  {
    match e
    case Moves(p, m) => MoveEnds(s, p, m);
    case Works(p, w) =>
      WorkAdvances(a, s, p, w);
      WorkEnds(a, s, p, w);
    case Drifts(d) => DriftEnds(a, s, d);
  }

  lemma {:induction false} RunEnds(a: Assumptions, s0: State, es: seq<Event>)
    requires Init(s0) && Runs(a, s0, es) && a.timelySets
    ensures AllEnds(After(a, s0, es))
    decreases |es|
  {
    if es != [] {
      var n := |es| - 1;
      RunEnds(a, s0, es[..n]);
      StepEnds(a, After(a, s0, es[..n]), es[n]);
    }
  }

  /** Though nobody clears claims away, none is left when the slot after its own is over. */
  lemma ClaimsRunOut(a: Assumptions, s0: State, es: seq<Event>, k: Key)
    requires Init(s0) && Runs(a, s0, es) && a.timelySets
    requires After(a, s0, es).clock >= k.slot + 2 * k.kind.Interval()
    ensures !Live(After(a, s0, es), k)
  {
    RunEnds(a, s0, es);
  }
}
