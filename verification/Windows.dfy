/**
 * More about finished tables: a longer window has at least what a shorter one has, the order
 * of the logs does not matter, and nothing is lost when the rows are written out.
 */
module Windows {
  import opened Base
  import opened Requests
  import opened Aggregate
  import opened Aggregator
  import opened Conservation

  // ---- Longer windows ----

  /** The same row for another window. */
  function For(r: Row, p: Period): (r': Row)
    requires !r.DayRow?
    ensures r'.Table() == r.Table() && r'.Window() == Some(p) && (r.period == p ==> r' == r)
  {
    match r
    case PlatformRow(_) => PlatformRow(p)
    case AccountRow(a, _) => AccountRow(a, p)
    case BucketRow(b, _) => BucketRow(b, p)
    case UserRow(u, a, _) => UserRow(u, a, p)
    case PrefixRow(b, x, _) => PrefixRow(b, x, p)
  }

  lemma HitsForLonger(env: Env, l: Log, r: Row, p: Period)
    requires !r.DayRow? && r.period.Hours() <= p.Hours() && Hits(env, l, r)
    ensures Hits(env, l, For(r, p))
  {
  }

  /** Everything counted for the row is counted for the longer window too. */
  lemma {:induction false} LongerWindowsTotalMore(env: Env, logs: seq<Log>, r: Row, p: Period, m: Measure)
    requires !r.DayRow? && r.period.Hours() <= p.Hours()
    requires forall l: Log :: l in logs ==> m.Weight(l) >= 0
    ensures 0 <= Total(Select(env, logs, r), m) <= Total(Select(env, logs, For(r, p)), m)
  {
    if logs != [] {
      var before, l := logs[..|logs| - 1], logs[|logs| - 1];
      LongerWindowsTotalMore(env, before, r, p, m);
      assert logs == before + [l] && m.Weight(l) >= 0;
      SelectGrows(env, before, l, r, m);
      SelectGrows(env, before, l, For(r, p), m);
      if Hits(env, l, r) {
        HitsForLonger(env, l, r, p);
      }
    }
  }

  lemma LongerWindowsSelectMore(env: Env, logs: seq<Log>, r: Row, p: Period)
    requires !r.DayRow? && r.period.Hours() <= p.Hours()
    ensures forall l :: l in Select(env, logs, r) ==> l in Select(env, logs, For(r, p))
  {
    forall l | l in Select(env, logs, r) ensures l in Select(env, logs, For(r, p)) {
      SelectedIff(env, logs, r, l);
      HitsForLonger(env, l, r, p);
      SelectedIff(env, logs, For(r, p), l);
    }
  }

  predicate AtMostIn(t: Tally, t': Tally) {
    && t.requests <= t'.requests && t.errors <= t'.errors
    && t.gets <= t'.gets && t.puts <= t'.puts && t.deletes <= t'.deletes
    && t.uploadBytes <= t'.uploadBytes && t.downloadBytes <= t'.downloadBytes
    && t.active <= t'.active
  }

  predicate UserAtMostIn(t: UserTally, t': UserTally) {
    && t.uploads <= t'.uploads && t.downloads <= t'.downloads && t.deletes <= t'.deletes && t.accesses <= t'.accesses
    && t.uploadBytes <= t'.uploadBytes && t.downloadBytes <= t'.downloadBytes
  }

  /** A platform, account or bucket row has a row for each longer window, with nothing less in any column. */
  lemma CountersGrowWithTheWindow(v: Tables, env: Env, logs: seq<Log>, r: Row, p: Period)
    requires v.AllRight(env, logs) && forall l: Log :: l in logs ==> l.size >= 0
    requires r in v.counters && (r.PlatformRow? || r.AccountRow? || r.BucketRow?) && r.period.Hours() <= p.Hours()
    ensures For(r, p) in v.counters && AtMostIn(v.counters[r], v.counters[For(r, p)])
  {
    var less, more := Select(env, logs, r), Select(env, logs, For(r, p));
    CountersAreTallies(v, env, logs, r);
    LongerWindowsSelectMore(env, logs, r, p);
    assert less != [] ==> less[0] in more;
    CountersAreTallies(v, env, logs, For(r, p));
    TalliesGrow(env, logs, r, p);
  }

  lemma CountersAreTallies(v: Tables, env: Env, logs: seq<Log>, r: Row)
    requires v.AllRight(env, logs) && r.Table() != Users && r.Table() != Prefixes
    ensures r in v.counters <==> r.PlatformRow? || Select(env, logs, r) != []
    ensures r in v.counters ==> v.counters[r] == TallyOf(Select(env, logs, r))
  {
  }

  lemma TalliesGrow(env: Env, logs: seq<Log>, r: Row, p: Period)
    requires forall l: Log :: l in logs ==> l.size >= 0
    requires !r.DayRow? && r.period.Hours() <= p.Hours()
    ensures AtMostIn(TallyOf(Select(env, logs, r)), TallyOf(Select(env, logs, For(r, p))))
    ensures UserAtMostIn(UserTallyOf(Select(env, logs, r)), UserTallyOf(Select(env, logs, For(r, p))))
  {
    forall m: Measure ensures Total(Select(env, logs, r), m) <= Total(Select(env, logs, For(r, p)), m) {
      LongerWindowsTotalMore(env, logs, r, p, m);
    }
    LongerWindowsSelectMore(env, logs, r, p);
  }

  /** The same for user rows. */
  lemma UsersGrowWithTheWindow(v: Tables, env: Env, logs: seq<Log>, r: Row, p: Period)
    requires v.AllRight(env, logs) && forall l: Log :: l in logs ==> l.size >= 0
    requires r in v.users && r.UserRow? && r.period.Hours() <= p.Hours()
    ensures For(r, p) in v.users && UserAtMostIn(v.users[r], v.users[For(r, p)])
  {
    var less, more := Select(env, logs, r), Select(env, logs, For(r, p));
    assert IsTable(v.users, UserTallyOf, Users, env, logs);
    LongerWindowsSelectMore(env, logs, r, p);
    assert less[0] in more;
    TalliesGrow(env, logs, r, p);
  }

  /** And for prefix rows. */
  lemma PrefixesGrowWithTheWindow(v: Tables, env: Env, logs: seq<Log>, r: Row, p: Period)
    requires v.AllRight(env, logs)
    requires r in v.prefixes && r.PrefixRow? && r.period.Hours() <= p.Hours()
    ensures For(r, p) in v.prefixes && 0 < v.prefixes[r] <= v.prefixes[For(r, p)]
  {
    var less, more := Select(env, logs, r), Select(env, logs, For(r, p));
    assert IsTable(v.prefixes, SizeOf, Prefixes, env, logs);
    LongerWindowsSelectMore(env, logs, r, p);
    assert less[0] in more;
    LongerWindowsTotalMore(env, logs, r, p, Logs);
    LogsAreTheirNumber(less);
    LogsAreTheirNumber(more);
  }

  lemma {:induction false} LogsAreTheirNumber(sel: seq<Log>)
    ensures Total(sel, Logs) == |sel|
  {
    if sel != [] {
      LogsAreTheirNumber(sel[..|sel| - 1]);
    }
  }

  // ---- The order of the logs ----

  lemma {:induction false} SelectedAsOften(env: Env, logs: seq<Log>, r: Row, l: Log)
    ensures multiset(Select(env, logs, r))[l] == if Hits(env, l, r) then multiset(logs)[l] else 0
  {
    if logs != [] {
      var before, last := logs[..|logs| - 1], logs[|logs| - 1];
      assert logs == before + [last];
      SelectedAsOften(env, before, r, l);
    }
  }

  lemma SelectionsPermute(env: Env, logs: seq<Log>, logs': seq<Log>, r: Row)
    requires multiset(logs) == multiset(logs')
    ensures multiset(Select(env, logs, r)) == multiset(Select(env, logs', r))
  {
    forall l ensures multiset(Select(env, logs, r))[l] == multiset(Select(env, logs', r))[l] {
      SelectedAsOften(env, logs, r, l);
      SelectedAsOften(env, logs', r, l);
    }
  }

  lemma {:induction false} TotalsPermute(a: seq<Log>, b: seq<Log>, m: Measure)
    requires multiset(a) == multiset(b)
    ensures Total(a, m) == Total(b, m)
  {
    if a == [] {
      assert |b| == |multiset(b)| == 0;
    } else {
      var i := FindLast(a, b);
      TotalsPermute(a[..|a| - 1], b[..i] + b[i + 1..], m);
      TotalTakesOut(b, i, m);
    }
  }

  lemma FindLast(a: seq<Log>, b: seq<Log>) returns (i: nat)
    requires multiset(a) == multiset(b) && a != []
    ensures i < |b| && b[i] == a[|a| - 1] && multiset(a[..|a| - 1]) == multiset(b[..i] + b[i + 1..])
  {
    var l := a[|a| - 1];
    assert l in multiset(a);
    assert l in b;
    i :| 0 <= i < |b| && b[i] == l;
    WithoutOne(a, |a| - 1);
    WithoutOne(b, i);
    assert a[..|a| - 1] + a[|a| - 1 + 1..] == a[..|a| - 1];
  }

  lemma WithoutOne<T>(s: seq<T>, i: nat)
    requires i < |s|
    ensures multiset(s[..i] + s[i + 1..]) == multiset(s) - multiset{s[i]}
  {
    assert s == s[..i] + [s[i]] + s[i + 1..];
  }

  lemma {:induction false} TotalsJoin(a: seq<Log>, b: seq<Log>, m: Measure)
    ensures Total(a + b, m) == Total(a, m) + Total(b, m)
  {
    if b == [] {
      assert a + b == a;
    } else {
      var n := |b| - 1;
      TotalsJoin(a, b[..n], m);
      assert a + b == (a + b[..n]) + [b[n]];
      TotalOneMore(a + b[..n], b[n], m);
    }
  }

  lemma TotalTakesOut(s: seq<Log>, i: nat, m: Measure)
    requires i < |s|
    ensures Total(s, m) == Total(s[..i] + s[i + 1..], m) + m.Weight(s[i])
  {
    TotalsJoin(s[..i], s[i + 1..], m);
    assert s == s[..i + 1] + s[i + 1..] && s[..i + 1] == s[..i] + [s[i]];
    TotalsJoin(s[..i + 1], s[i + 1..], m);
    TotalOneMore(s[..i], s[i], m);
  }

  lemma ValuesPermute(a: seq<Log>, b: seq<Log>)
    requires multiset(a) == multiset(b)
    ensures TallyOf(a) == TallyOf(b) && UserTallyOf(a) == UserTallyOf(b) && |a| == |b| && (a == [] <==> b == [])
  {
    forall m: Measure ensures Total(a, m) == Total(b, m) {
      TotalsPermute(a, b, m);
    }
    assert |a| == |multiset(a)| && |b| == |multiset(b)|;
    forall l ensures l in a <==> l in b {
      assert l in a <==> l in multiset(a);
      assert l in b <==> l in multiset(b);
    }
  }

  ghost predicate SameTables(v: Tables, v': Tables) {
    && (forall t :: t == Platform || t == Accounts || t == Buckets || t == Daily ==> SameRows(v.counters, v'.counters, t))
    && SameRows(v.users, v'.users, Users)
    && SameRows(v.prefixes, v'.prefixes, Prefixes)
    && v.bucketAccount == v'.bucketAccount
  }

  /**
   * Passes over the same logs end in the same tables, whatever the order of the rows and of
   * the windows: the tables are determined by the multiset of logs.
   */
  lemma OrderDoesNotMatter(v: Tables, v': Tables, env: Env, logs: seq<Log>, logs': seq<Log>)
    requires v.AllRight(env, logs) && v'.AllRight(env, logs') && multiset(logs) == multiset(logs')
    ensures SameTables(v, v')
  {
    forall a, b: seq<Log> | multiset(a) == multiset(b)
      ensures TallyOf(a) == TallyOf(b) && UserTallyOf(a) == UserTallyOf(b) && SizeOf(a) == SizeOf(b)
    {
      ValuesPermute(a, b);
    }
    SameViews(v.counters, v'.counters, TallyOf, Platform, env, logs, logs');
    SameViews(v.counters, v'.counters, TallyOf, Accounts, env, logs, logs');
    SameViews(v.counters, v'.counters, TallyOf, Buckets, env, logs, logs');
    SameViews(v.counters, v'.counters, TallyOf, Daily, env, logs, logs');
    SameViews(v.users, v'.users, UserTallyOf, Users, env, logs, logs');
    SameViews(v.prefixes, v'.prefixes, SizeOf, Prefixes, env, logs, logs');
    SameAttribution(v.bucketAccount, v'.bucketAccount, env, logs, logs');
  }

  lemma SameViews<V>(view: map<Row, V>, view': map<Row, V>, value: seq<Log> -> V, t: Table, env: Env, logs: seq<Log>,
        logs': seq<Log>)
    requires IsTable(view, value, t, env, logs) && IsTable(view', value, t, env, logs') && multiset(logs) == multiset(logs')
    requires forall a, b: seq<Log> :: multiset(a) == multiset(b) ==> value(a) == value(b)
    ensures SameRows(view, view', t)
  {
    forall r: Row | r.Table() == t ensures (r in view' <==> r in view) && (r in view ==> view'[r] == view[r]) {
      SelectionsPermute(env, logs, logs', r);
      ValuesPermute(Select(env, logs, r), Select(env, logs', r));
    }
  }

  // ---- Which account uses a bucket ----

  /** The verdict on a bucket is the only one there can be. */
  lemma VerdictIsUnique(m: map<int, Option<int>>, m': map<int, Option<int>>, b: int, claimants: set<int>)
    requires Judged(m, b, claimants) && Judged(m', b, claimants)
    ensures (b in m <==> b in m') && (b in m ==> m[b] == m'[b])
  {
    if b in m && b in m' {
      if m[b].Some? && m'[b].Some? {
        assert m[b].value in claimants && m'[b].value in claimants;
      }
    }
  }

  lemma SameAttribution(m: map<int, Option<int>>, m': map<int, Option<int>>, env: Env, logs: seq<Log>, logs': seq<Log>)
    requires IsAttribution(m, env, logs) && IsAttribution(m', env, logs') && multiset(logs) == multiset(logs')
    ensures m == m'
  {
    forall b: int ensures (b in m <==> b in m') && (b in m ==> m[b] == m'[b]) {
      forall l ensures l in logs <==> l in logs' {
        assert l in logs <==> l in multiset(logs);
        assert l in logs' <==> l in multiset(logs');
      }
      assert Claimants(env, logs, b) == Claimants(env, logs', b);
      VerdictIsUnique(m, m', b, Claimants(env, logs, b));
    }
  }

  /** A bucket is given to an account exactly when it is the only account that put or got keyed objects there. */
  lemma AttributedIffOnlyClaimant(v: Tables, env: Env, logs: seq<Log>, b: int, a: int)
    requires v.AllRight(env, logs)
    ensures (b in v.bucketAccount && v.bucketAccount[b] == Some(a)) <==> Claimants(env, logs, b) == {a}
    ensures (b in v.bucketAccount && v.bucketAccount[b] == None) <==> Plural(Claimants(env, logs, b))
  {
    var m, claimants := v.bucketAccount, Claimants(env, logs, b);
    assert Judged(m, b, claimants);
    if claimants == {a} {
      assert a in claimants && !Plural(claimants);
    }
    if Plural(claimants) {
      var y, z :| y in claimants && z in claimants && y != z;
      assert claimants != {y} && claimants != {z};
    }
  }

  /** Claims may come in any order and any number of times, and a conflict is never undone. */
  lemma ClaimsCommute(m: map<int, Option<int>>, b: int, c: int, x: Option<int>, y: Option<int>)
    ensures Attribute(Attribute(m, b, x), c, y) == Attribute(Attribute(m, c, y), b, x)
    ensures Attribute(Attribute(m, b, x), b, x) == Attribute(m, b, x)
    ensures b in m && m[b] == None ==> Attribute(m, b, x) == m
  {
    if b != c {
      assert Attribute(Attribute(m, b, x), c, y) == Attribute(Attribute(m, c, y), b, x);
    }
  }
}
