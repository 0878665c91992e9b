/**
 * Views from heartbeats: while the set of members that beat is stable and SCAN misses nobody, every
 * process sees the same group, and so the group covers its buckets.
 */
module ProtocolViews {
  import opened Base
  import opened Text
  import opened Sched
  import opened Protocol
  import opened ProtocolCoverage

  /** The names whose heartbeat has not expired. */
  function LiveNames(s: State): set<string> {
    set m | m in s.beats && m != "" && s.clock < s.beats[m]
  }

  /** The view holds exactly the live names and the process itself. */
  ghost predicate IsExactView(view: seq<string>, names: set<string>, me: string) {
    forall m :: m in view <==> m in names || (m == me && me != "")
  }

  /** After the moment, every SCAN of the run returned exactly the keys that had not expired. */
  ghost predicate ScansAreExact(a: Assumptions, s0: State, es: seq<Event>, moment: Option<int>)
    requires Runs(a, s0, es)
    decreases |es|
  {
    es == [] ||
    (var n := |es| - 1;
     var s := After(a, s0, es[..n]);
     && ScansAreExact(a, s0, es[..n], moment)
     && (IsAfter(s.clock, moment) && es[n].Moves? && es[n].move.ReadMembers? ==>
           IsExactView(es[n].move.view, LiveNames(s), s.procs[es[n].p].me)))
  }

  /** At every moment after this one, exactly the members of V have a live heartbeat. */
  ghost predicate IsStable(a: Assumptions, s0: State, es: seq<Event>, moment: Option<int>, V: seq<string>)
    requires Runs(a, s0, es)
    decreases |es|
  {
    && (IsAfter(After(a, s0, es).clock, moment) ==>
          forall m :: m in LiveNames(After(a, s0, es)) <==> m in V)
    && (es == [] || IsStable(a, s0, es[..|es| - 1], moment, V))
  }

  /** A member's views since the moment are the group. */
  ghost predicate SeesGroup(x: Process, moment: Option<int>, V: seq<string>) {
    x.me in V ==>
      && (x.pc.Viewed? || x.pc.Timed? ==> IsAfter(x.pc.seen, moment) ==> x.pc.view == V)
      && (x.pc.Working? || x.pc.Holding? || x.pc.Dropping? ==> Since(x.pc.tick, moment) ==> x.pc.tick.view == V)
      && (x.last.Some? && Since(x.last.value, moment) ==> x.last.value.view == V)
  }

  /** Sorted lists with the same elements are the same. */
  lemma {:induction false} AscendingIsUnique(a: seq<string>, b: seq<string>)
    requires Ascending(a) && Ascending(b) && forall m :: m in a <==> m in b
    ensures a == b
  {
    assert (a != [] ==> a[0] in a) && (b != [] ==> b[0] in b);
    if a != [] {
      HeadsAgree(a, b);
      forall m ensures m in a[1..] <==> m in b[1..] {
        TailIsTheRest(a, m);
        TailIsTheRest(b, m);
      }
      AscendingIsUnique(a[1..], b[1..]);
      assert a == [a[0]] + a[1..] && b == [b[0]] + b[1..];
    }
  }

  lemma HeadsAgree(a: seq<string>, b: seq<string>)
    requires Ascending(a) && Ascending(b) && (forall m :: m in a <==> m in b) && a != [] && b != []
    ensures a[0] == b[0]
  {
    assert a[0] in b && b[0] in a;
    var i :| 0 <= i < |b| && b[i] == a[0];
    var j :| 0 <= j < |a| && a[j] == b[0];
    assert (i > 0 ==> Less(b[0], b[i])) && (j > 0 ==> Less(a[0], a[j]));
    LessIsTotal(a[0], b[0]);
  }

  lemma TailIsTheRest(a: seq<string>, m: string)
    requires Ascending(a) && a != []
    ensures m in a[1..] <==> m in a && m != a[0]
  {
    assert a == [a[0]] + a[1..];
    if m in a[1..] {
      var i :| 0 <= i < |a[1..]| && a[1..][i] == m;
      LessIsTotal(a[0], a[i + 1]);
    }
  }

  lemma MoveKeepsViews(s: State, p: Proc, m: Move, moment: Option<int>, V: seq<string>)
    requires MoveEnabled(s, p, m) && SeesGroup(s.procs[p], moment, V) && Ascending(V)
    requires IsAfter(s.clock, moment) ==>
      && (m.ReadMembers? ==> IsExactView(m.view, LiveNames(s), s.procs[p].me))
      && forall m :: m in LiveNames(s) <==> m in V
    ensures var s' := MoveStep(s, p, m);
      p in s'.procs && s'.procs == s.procs[p := s'.procs[p]] && SeesGroup(s'.procs[p], moment, V)
  {
    if m.ReadMembers? && s.procs[p].me in V && IsAfter(s.clock, moment) {
      AscendingIsUnique(m.view, V);
    }
  }

  lemma WorkKeepsViews(a: Assumptions, s: State, p: Proc, w: Work, moment: Option<int>, V: seq<string>)
    requires WorkEnabled(a, s, p, w) && SeesGroup(s.procs[p], moment, V)
    ensures var s' := WorkStep(a, s, p, w);
      p in s'.procs && s'.procs == s.procs[p := s'.procs[p]] && SeesGroup(s'.procs[p], moment, V)
  {
    WorkAdvances(a, s, p, w);
  }

  lemma {:induction false} RunSeesTheGroup(a: Assumptions, s0: State, es: seq<Event>, moment: Option<int>, V: seq<string>)
    requires Init(s0) && Runs(a, s0, es) && Ascending(V)
    requires ScansAreExact(a, s0, es, moment) && IsStable(a, s0, es, moment, V)
    ensures forall p :: p in After(a, s0, es).procs ==> SeesGroup(After(a, s0, es).procs[p], moment, V)
    decreases |es|
  {
    if es != [] {
      var n := |es| - 1;
      var s := After(a, s0, es[..n]);
      RunSeesTheGroup(a, s0, es[..n], moment, V);
      match es[n]
      case Moves(p, m) => MoveKeepsViews(s, p, m, moment, V);
      case Works(p, w) => WorkKeepsViews(a, s, p, w, moment, V);
      case Drifts(d) => DriftsKeepProcs(a, s, d);
    }
  }

  /** The last tick of the process was error-free, began after the moment, listed bucket b and fell in the slot. */
  predicate Tends(x: Process, b: int, kind: Kind, slot: int, moment: Option<int>) {
    && x.last.Some? && x.last.value.clean && Since(x.last.value, moment)
    && x.last.value.items.Some? && b in x.last.value.items.value
    && SlotStart(x.last.value.now, kind.Interval()) == slot
  }

  /** At some point from event n on, a process of that name had just tended the bucket. */
  ghost predicate IsTended(a: Assumptions, s0: State, es: seq<Event>, n: nat, m: string, b: int, kind: Kind, slot: int)
    requires Runs(a, s0, es) && n <= |es|
  {
    exists i: nat, p: Proc :: n <= i <= |es| && p in At(a, s0, es, i).procs && At(a, s0, es, i).procs[p].me == m
      && Tends(At(a, s0, es, i).procs[p], b, kind, slot, Moment(a, s0, es, n))
  }

  lemma {:induction false} PrefixIsStable(a: Assumptions, s0: State, es: seq<Event>, i: nat, moment: Option<int>,
        V: seq<string>)
    requires Runs(a, s0, es) && i <= |es| && Runs(a, s0, es[..i])
    requires ScansAreExact(a, s0, es, moment) && IsStable(a, s0, es, moment, V)
    ensures ScansAreExact(a, s0, es[..i], moment) && IsStable(a, s0, es[..i], moment, V)
    decreases |es|
  {
    if i < |es| {
      assert es[..|es| - 1][..i] == es[..i];
      PrefixIsStable(a, s0, es[..|es| - 1], i, moment, V);
    } else {
      assert es[..i] == es;
    }
  }

  lemma TendedIsCovered(a: Assumptions, s0: State, es: seq<Event>, n: nat, m: string, V: seq<string>, b: int,
        kind: Kind, slot: int)
    requires Init(s0) && Runs(a, s0, es) && n <= |es| && Ascending(V) && m in V
    requires ScansAreExact(a, s0, es, Moment(a, s0, es, n)) && IsStable(a, s0, es, Moment(a, s0, es, n), V)
    requires IsTended(a, s0, es, n, m, b, kind, slot)
    ensures IsCovered(a, s0, es, n, m, V, b, kind, slot)
  {
    var moment := Moment(a, s0, es, n);
    var i: nat, p: Proc :| n <= i <= |es| && p in At(a, s0, es, i).procs && At(a, s0, es, i).procs[p].me == m
      && Tends(At(a, s0, es, i).procs[p], b, kind, slot, moment);
    PrefixRuns(a, s0, es, i);
    PrefixIsStable(a, s0, es, i, moment, V);
    RunSeesTheGroup(a, s0, es[..i], moment, V);
    assert SeesGroup(At(a, s0, es, i).procs[p], moment, V);
    assert Covers(At(a, s0, es, i).procs[p], V, b, kind, slot, moment);
  }

  /**
   * If since some moment the heartbeats are stable and SCANs exact, and every member has at one time or another finished
   * an error-free tick of the slot that began after it, every bucket they list is claimed for the slot, unless a
   * DEL has landed since: the buckets of peers that left before are made up for.
   */
  lemma StableGroupClaimsEveryBucket(a: Assumptions, s0: State, es: seq<Event>, n: nat, V: seq<string>, b: int,
        kind: Kind, slot: int)
    requires Init(s0) && Runs(a, s0, es) && n <= |es| && Ascending(V) && V != [] && kind != Stats
    requires ScansAreExact(a, s0, es, Moment(a, s0, es, n)) && IsStable(a, s0, es, Moment(a, s0, es, n), V)
    requires forall m :: m in V ==> IsTended(a, s0, es, n, m, b, kind, slot)
    ensures var k := Key(slot, kind, BucketId(b)); k in After(a, s0, es).claims || WasDropped(es, n, k)
  {
    forall m | m in V ensures IsCovered(a, s0, es, n, m, V, b, kind, slot) {
      TendedIsCovered(a, s0, es, n, m, V, b, kind, slot);
    }
    EveryBucketIsClaimed(a, s0, es, n, V, b, kind, slot);
  }
}
