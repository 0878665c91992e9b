/** Which logs a row of the statistics is about, in terms of the logs alone. */
module Selection {
  import opened Base
  import opened Sched
  import opened Requests
  import opened Aggregate
  import opened Publishing

  function Days(p: Period): int {
    match p
    case Last24h => 1
    case Last7d => 7
    case Last30d => 30
  }

  /** An object request no older than the window. */
  predicate IsRecent(l: Log, now: int, p: Period) {
    l.action !in ADMIN_ACTIONS && l.action !in EXCLUDED_ACTIONS && now - l.at <= Days(p) * 86_400 * SECOND
  }

  /** A request about the bucket, under the name by which the index finds it. */
  predicate IsAbout(l: Log, b: int, env: Env, buckets: map<int, string>) {
    b in buckets && l.bucket == Some(buckets[b]) && buckets[b] in env.nameToId && env.nameToId[buckets[b]] == b
  }

  /** The log belongs to the row. */
  predicate Belongs(l: Log, r: Row, env: Env, buckets: map<int, string>) {
    match r
    case PlatformRow(p) => IsRecent(l, env.now, p)
    case AccountRow(a, p) => IsRecent(l, env.now, p) && l.accountId == Some(a)
    case BucketRow(b, p) => IsRecent(l, env.now, p) && IsAbout(l, b, env, buckets)
    case UserRow(u, a, p) => IsRecent(l, env.now, p) && l.accountId == Some(a) && l.userId == Some(u)
    case PrefixRow(b, level, p) =>
      && IsRecent(l, env.now, p) && IsAbout(l, b, env, buckets)
      && l.action in GET_ACTIONS + PUT_ACTIONS && l.key.Some? && IsFirstLevel(level, l.key.value)
    case DayRow(day) =>
      && l.action !in ADMIN_ACTIONS && l.action !in EXCLUDED_ACTIONS
      && day % (86_400 * SECOND) == 0 && day <= l.at < day + 86_400 * SECOND
      && env.now - 30 * 86_400 * SECOND < day + 86_400 * SECOND
  }

  lemma BucketIsAbout(l: Log, b: int, env: Env, buckets: map<int, string>)
    requires IsIndex(env.nameToId, buckets)
    ensures BucketOf(env, l) == Some(b) <==> IsAbout(l, b, env, buckets)
  {
  }

  lemma DayIsAround(at: int, day: int, now: int)
    ensures DayOf(at) == day && day >= DayCut(now) <==>
      && day % (86_400 * SECOND) == 0 && day <= at < day + 86_400 * SECOND
      && now - 30 * 86_400 * SECOND < day + 86_400 * SECOND
  {
    var (d, x) := (86_400 * SECOND, now - 30 * 86_400 * SECOND);
    assert d == DAY && DayOf(at) == d * (at / d) && DayOf(x) == d * (x / d) && DayCut(now) == DayOf(x);
    if day % d == 0 && day <= at < day + d {
      DivisionIsUnique(at, d, day / d, at - day);
    }
    if DayOf(at) == day {
      DivisionIsUnique(day, d, at / d, 0);
    }
  }

  lemma HitsIsBelongs(l: Log, r: Row, env: Env, buckets: map<int, string>)
    requires IsIndex(env.nameToId, buckets)
    ensures Hits(env, l, r) <==> Belongs(l, r, env, buckets)
  {
    match r
    case BucketRow(b, _) => BucketIsAbout(l, b, env, buckets);
    case PrefixRow(b, level, _) =>
      BucketIsAbout(l, b, env, buckets);
      OpsAreGroups(l.action);
      if l.key.Some? { FirstLevelEndsAtTheFirstSlash(l.key.value, level); }
    case DayRow(day) => DayIsAround(l.at, day, env.now);
    case _ =>
  }

  /** A row is about the logs that belong to it, each as often as it was loaded. */
  lemma {:induction false} RowsTakeTheLogsThatBelong(env: Env, buckets: map<int, string>, logs: seq<Log>, r: Row, l: Log)
    requires IsIndex(env.nameToId, buckets)
    ensures multiset(Select(env, logs, r))[l] == if Belongs(l, r, env, buckets) then multiset(logs)[l] else 0
  {
    if logs != [] {
      var n := |logs| - 1;
      RowsTakeTheLogsThatBelong(env, buckets, logs[..n], r, l);
      assert logs == logs[..n] + [logs[n]];
      HitsIsBelongs(l, r, env, buckets);
      HitsIsBelongs(logs[n], r, env, buckets);
    }
  }
}
