/** The aggregator itself: the pass over the logs that fills the tables. */
module Aggregator {
  import opened Base
  import opened Requests
  import opened Aggregate

  ghost function SizeOf(sel: seq<Log>): int {
    |sel|
  }

  /** The rows of the six tables that a log belongs to in one window. */
  datatype RowsOf = RowsOf(platform: Option<Row>, account: Option<Row>, bucket: Option<Row>,
                           user: Option<Row>, prefix: Option<Row>, day: Option<Row>) {
    predicate Are(env: Env, l: Log, w: Option<Period>) {
      && platform == RowFor(env, l, Platform, w) && account == RowFor(env, l, Accounts, w)
      && bucket == RowFor(env, l, Buckets, w) && user == RowFor(env, l, Users, w)
      && prefix == RowFor(env, l, Prefixes, w) && day == RowFor(env, l, Daily, w)
    }
  }

  function PrefixBumped(view: map<Row, int>, r: Option<Row>): map<Row, int> {
    if r.None? then view else view[r.value := (if r.value in view then view[r.value] else 0) + 1]
  }

  /** The contents of all tables. */
  datatype Tables = Tables(counters: map<Row, Tally>, users: map<Row, UserTally>, prefixes: map<Row, int>,
                           bucketAccount: map<int, Option<int>>) {
    /** Every table is right for the logs before, plus this log in the windows done. */
    ghost predicate AllTrack(env: Env, before: seq<Log>, log: Log, done: Windows) {
      && Tracks(counters, TallyOf, Platform, env, before, log, done)
      && Tracks(counters, TallyOf, Accounts, env, before, log, done)
      && Tracks(counters, TallyOf, Buckets, env, before, log, done)
      && Tracks(counters, TallyOf, Daily, env, before, log, done)
      && Tracks(users, UserTallyOf, Users, env, before, log, done)
      && Tracks(prefixes, SizeOf, Prefixes, env, before, log, done)
      && Attributes(bucketAccount, env, before, log, done)
    }

    /** Every table is right for a whole run of logs. */
    ghost predicate AllRight(env: Env, logs: seq<Log>) {
      && IsTable(counters, TallyOf, Platform, env, logs)
      && IsTable(counters, TallyOf, Accounts, env, logs)
      && IsTable(counters, TallyOf, Buckets, env, logs)
      && IsTable(counters, TallyOf, Daily, env, logs)
      && IsTable(users, UserTallyOf, Users, env, logs)
      && IsTable(prefixes, SizeOf, Prefixes, env, logs)
      && IsAttribution(bucketAccount, env, logs)
    }

    /** What one window's rows make of the tables. */
    function Bump(rows: RowsOf, l: Log): Tables {
      Tables(Bumped(Bumped(Bumped(Bumped(counters, rows.platform, l), rows.account, l), rows.bucket, l), rows.day, l),
             UserBumped(users, rows.user, l),
             PrefixBumped(prefixes, rows.prefix),
             if rows.prefix.Some? && rows.prefix.value.PrefixRow? then
               Attribute(bucketAccount, rows.prefix.value.bucket, l.accountId)
             else bucketAccount)
    }
  }

  /** One of the four counter tables after the bumps: its own row, and no other, has taken the log. */
  lemma CountersAdvance(v: Tables, rows: RowsOf, r: Option<Row>, t: Table, env: Env, before: seq<Log>, log: Log,
        done: Windows, w: Option<Period>)
    requires Tracks(v.counters, TallyOf, t, env, before, log, done) && w !in done && rows.Are(env, log, w)
    requires t != Users && t != Prefixes && r == RowFor(env, log, t, w)
    ensures Tracks(v.Bump(rows, log).counters, TallyOf, t, env, before, log, done + {w})
  {
    RowsAreOfTheirTables(env, log, w);
    var view' := v.Bump(rows, log).counters;
    if r.Some? {
      HitsIsRowFor(env, log, r.value);
      assert TallyOf([]) == ZERO;
      PlusCountsOneMore(Select(env, before, r.value), log);
    }
    OnlyOwnRowMoves(v.counters, rows, log, r, t);
    TracksAdvances(v.counters, view', TallyOf, t, env, before, log, done, w);
  }

  lemma OnlyOwnRowMoves(view: map<Row, Tally>, rows: RowsOf, l: Log, r: Option<Row>, t: Table)
    requires t == Platform || t == Accounts || t == Buckets || t == Daily
    requires rows.platform.Some? ==> rows.platform.value.Table() == Platform
    requires rows.account.Some? ==> rows.account.value.Table() == Accounts
    requires rows.bucket.Some? ==> rows.bucket.value.Table() == Buckets
    requires rows.day.Some? ==> rows.day.value.Table() == Daily
    requires r == match t
      case Platform => rows.platform
      case Accounts => rows.account
      case Buckets => rows.bucket
      case _ => rows.day
    ensures SameRows(Bumped(view, r, l),
      Bumped(Bumped(Bumped(Bumped(view, rows.platform, l), rows.account, l), rows.bucket, l), rows.day, l), t)
  {
  }

  lemma RowsAreOfTheirTables(env: Env, l: Log, w: Option<Period>)
    ensures forall t: Table :: var r := RowFor(env, l, t, w); r.Some? ==> r.value.Table() == t && r.value.Window() == w
  {
  }

  lemma AllAdvance(v: Tables, rows: RowsOf, env: Env, before: seq<Log>, log: Log, done: Windows, w: Option<Period>)
    requires v.AllTrack(env, before, log, done) && w !in done && rows.Are(env, log, w)
    ensures v.Bump(rows, log).AllTrack(env, before, log, done + {w})
  {
    AllCountersAdvance(v, rows, env, before, log, done, w);
    UsersAdvance(v.users, rows.user, env, before, log, done, w);
    PrefixesAdvance(v.prefixes, rows.prefix, env, before, log, done, w);
    AttributesAdvances(v.bucketAccount, v.Bump(rows, log).bucketAccount, env, before, log, done, w);
  }

  lemma AllCountersAdvance(v: Tables, rows: RowsOf, env: Env, before: seq<Log>, log: Log, done: Windows,
        w: Option<Period>)
    requires v.AllTrack(env, before, log, done) && w !in done && rows.Are(env, log, w)
    ensures var counters := v.Bump(rows, log).counters;
      && Tracks(counters, TallyOf, Platform, env, before, log, done + {w})
      && Tracks(counters, TallyOf, Accounts, env, before, log, done + {w})
      && Tracks(counters, TallyOf, Buckets, env, before, log, done + {w})
      && Tracks(counters, TallyOf, Daily, env, before, log, done + {w})
  {
    CountersAdvance(v, rows, rows.platform, Platform, env, before, log, done, w);
    CountersAdvance(v, rows, rows.account, Accounts, env, before, log, done, w);
    CountersAdvance(v, rows, rows.bucket, Buckets, env, before, log, done, w);
    CountersAdvance(v, rows, rows.day, Daily, env, before, log, done, w);
  }

  lemma UsersAdvance(view: map<Row, UserTally>, r: Option<Row>, env: Env, before: seq<Log>, log: Log, done: Windows,
        w: Option<Period>)
    requires Tracks(view, UserTallyOf, Users, env, before, log, done) && w !in done && r == RowFor(env, log, Users, w)
    ensures Tracks(UserBumped(view, r, log), UserTallyOf, Users, env, before, log, done + {w})
  {
    RowsAreOfTheirTables(env, log, w);
    if r.Some? {
      HitsIsRowFor(env, log, r.value);
      PlusCountsOneMore(Select(env, before, r.value), log);
    }
    TracksAdvances(view, UserBumped(view, r, log), UserTallyOf, Users, env, before, log, done, w);
  }

  lemma PrefixesAdvance(view: map<Row, int>, r: Option<Row>, env: Env, before: seq<Log>, log: Log, done: Windows,
        w: Option<Period>)
    requires Tracks(view, SizeOf, Prefixes, env, before, log, done) && w !in done && r == RowFor(env, log, Prefixes, w)
    ensures Tracks(PrefixBumped(view, r), SizeOf, Prefixes, env, before, log, done + {w})
  {
    RowsAreOfTheirTables(env, log, w);
    TracksAdvances(view, PrefixBumped(view, r), SizeOf, Prefixes, env, before, log, done, w);
  }

  // ---- From one log to the next ----

  lemma Begin(v: Tables, env: Env, before: seq<Log>, log: Log)
    requires v.AllRight(env, before)
    ensures v.AllTrack(env, before, log, {})
  {
    TracksStarts(v.counters, TallyOf, Platform, env, before, log);
    TracksStarts(v.counters, TallyOf, Accounts, env, before, log);
    TracksStarts(v.counters, TallyOf, Buckets, env, before, log);
    TracksStarts(v.counters, TallyOf, Daily, env, before, log);
    TracksStarts(v.users, UserTallyOf, Users, env, before, log);
    TracksStarts(v.prefixes, SizeOf, Prefixes, env, before, log);
    AttributesStart(v.bucketAccount, env, before, log);
  }

  lemma AttributesStart(m: map<int, Option<int>>, env: Env, before: seq<Log>, log: Log)
    requires IsAttribution(m, env, before)
    ensures Attributes(m, env, before, log, {})
  {
    forall b: int ensures Judged(m, b, Claimants(env, before, b) + {}) {
      assert Claimants(env, before, b) + {} == Claimants(env, before, b);
    }
  }

  lemma End(v: Tables, env: Env, before: seq<Log>, log: Log)
    requires v.AllTrack(env, before, log, ALL_WINDOWS)
    ensures v.AllRight(env, before + [log])
  {
    TracksEnds(v.counters, TallyOf, Platform, env, before, log);
    TracksEnds(v.counters, TallyOf, Accounts, env, before, log);
    TracksEnds(v.counters, TallyOf, Buckets, env, before, log);
    TracksEnds(v.counters, TallyOf, Daily, env, before, log);
    TracksEnds(v.users, UserTallyOf, Users, env, before, log);
    TracksEnds(v.prefixes, SizeOf, Prefixes, env, before, log);
    forall b: int ensures Judged(v.bucketAccount, b, Claimants(env, before + [log], b)) {
      ClaimantsOneMore(env, before, log, b);
    }
  }

  /** A log that is no object request belongs nowhere. */
  lemma Ignored(v: Tables, env: Env, before: seq<Log>, log: Log)
    requires v.AllRight(env, before) && !IsObjectRequest(log.action)
    ensures v.AllRight(env, before + [log])
  {
    forall r: Row ensures Select(env, before + [log], r) == Select(env, before, r) {
      SelectOneMore(env, before, log, r);
      assert Select(env, before, r) + [] == Select(env, before, r);
    }
    forall b: int ensures Claimants(env, before + [log], b) == Claimants(env, before, b) {
      ClaimantsOneMore(env, before, log, b);
    }
  }

  lemma EmptyIsRight(counters: map<Row, Tally>, env: Env)
    requires forall r: Row :: r in counters <==> r.PlatformRow?
    requires forall r :: r in counters ==> counters[r] == ZERO
    ensures Tables(counters, map[], map[], map[]).AllRight(env, [])
  {
    assert TallyOf([]) == ZERO;
    assert forall b: int :: Claimants(env, [], b) == {};
  }

  lemma AllWindowsDone(done: Windows)
    requires None !in done && forall p: Period :: Some(p) in done
    ensures done + {None} == ALL_WINDOWS
  {
    forall w: Option<Period> ensures w in done + {None} <==> w in ALL_WINDOWS {
      if w.Some? {
        assert w.value.Last24h? || w.value.Last7d? || w.value.Last30d?;
      }
    }
  }

  lemma AllPeriods()
    ensures forall p: Period :: p in PERIODS
  {
    forall p: Period ensures p in PERIODS {
      assert p.Last24h? || p.Last7d? || p.Last30d?;
    }
  }

  /** In each window a log adds its account, if it names one, to its bucket's claimants. */
  lemma AttributesAdvances(m: map<int, Option<int>>, m': map<int, Option<int>>, env: Env, before: seq<Log>, log: Log,
        done: Windows, w: Option<Period>)
    requires Attributes(m, env, before, log, done)
    requires var r := RowFor(env, log, Prefixes, w);
      m' == if r.None? then m else Attribute(m, r.value.bucket, log.accountId)
    ensures Attributes(m', env, before, log, done + {w})
  {
    var r := RowFor(env, log, Prefixes, w);
    forall b: int
      ensures Judged(m', b, Claimants(env, before, b) + if ClaimsWithin(env, log, b, done + {w}) then {log.accountId.value} else {})
    {
      var was := Claimants(env, before, b) + if ClaimsWithin(env, log, b, done) then {log.accountId.value} else {};
      assert Judged(m, b, was);
      if r.Some? && r.value.bucket == b && log.accountId.Some? {
        assert w.Some? && w in done + {w} && ClaimsWithin(env, log, b, done + {w});
        AttributeJudges(m, b, log.accountId.value, was);
        assert was + {log.accountId.value} == Claimants(env, before, b) + {log.accountId.value};
      } else {
        assert ClaimsWithin(env, log, b, done + {w}) ==> ClaimsWithin(env, log, b, done);
      }
    }
  }

  class Aggregator {
    const env: Env
    const counters: CounterTable
    const users: UserTable
    var prefixes: map<Row, int>
    var bucketAccount: map<int, Option<int>>

    ghost predicate Valid()
      reads counters, counters.repr, users, users.repr
    {
      counters.Valid() && users.Valid() && users.Named() && users.names == env.names
    }

    ghost function Contents(): Tables
      reads this, counters, users
    {
      Tables(counters.view, users.view, prefixes, bucketAccount)
    }

    constructor (env: Env)
      ensures Valid() && this.env == env && Contents() == Tables(map[], map[], map[], map[])
      ensures fresh(counters) && fresh(users) && counters.repr == {} && users.repr == {}
    {
      this.env := env;
      counters := new CounterTable();
      users := new UserTable(env.names);
      prefixes, bucketAccount := map[], map[];
    }

    /** A zero platform row for every window. */
    method Open()
      requires Valid() && Contents() == Tables(map[], map[], map[], map[])
      modifies counters
      ensures Valid() && Contents().AllRight(env, []) && fresh(counters.repr - old(counters.repr))
    {
      AllPeriods();
      var todo := PERIODS;
      while todo != {}
        invariant Valid() && fresh(counters.repr - old(counters.repr))
        invariant forall r: Row :: r in counters.view <==> r.PlatformRow? && r.period !in todo
        invariant forall r :: r in counters.view ==> counters.view[r] == ZERO
        invariant users.view == map[] && prefixes == map[] && bucketAccount == map[]
        decreases |todo|
      {
        var p :| p in todo;
        counters.Ensure(PlatformRow(p));
        todo := todo - {p};
      }
      EmptyIsRight(counters.view, env);
    }

    /** The rows a log belongs to in one window take it, table by table. */
    method Bump(rows: RowsOf, log: Log)
      requires Valid()
      requires (rows.prefix.Some? ==> rows.prefix.value.PrefixRow?) && (rows.user.Some? ==> rows.user.value.UserRow?)
      modifies this`prefixes, this`bucketAccount, counters, counters.repr, users, users.repr
      ensures Valid() && fresh(counters.repr - old(counters.repr)) && fresh(users.repr - old(users.repr))
      ensures Contents() == old(Contents()).Bump(rows, log)
    {
      ghost var was := Contents();
      BumpCounters(rows, log);
      BumpUser(rows.user, log);
      assert counters.view == was.Bump(rows, log).counters;
      CountPrefix(rows.prefix, log);
      assert Contents() == was.Bump(rows, log);
    }

    method BumpCounters(rows: RowsOf, log: Log)
      requires Valid()
      modifies counters, counters.repr
      ensures Valid() && fresh(counters.repr - old(counters.repr))
      ensures var half := Bumped(Bumped(old(counters.view), rows.platform, log), rows.account, log);
        counters.view == Bumped(Bumped(half, rows.bucket, log), rows.day, log)
    {
      counters.AddRows(rows.platform, rows.account, rows.bucket, rows.day, log);
      assert users.Valid();
    }

    method BumpUser(row: Option<Row>, log: Log)
      requires Valid() && (row.Some? ==> row.value.UserRow?)
      modifies users, users.repr
      ensures Valid() && fresh(users.repr - old(users.repr))
      ensures users.view == UserBumped(old(users.view), row, log)
    {
      users.Add(row, log);
      assert counters.Valid();
    }

    method CountPrefix(row: Option<Row>, log: Log)
      requires row.Some? ==> row.value.PrefixRow?
      modifies this`prefixes, this`bucketAccount
      ensures prefixes == PrefixBumped(old(prefixes), row)
      ensures bucketAccount == if row.Some? then Attribute(old(bucketAccount), row.value.bucket, log.accountId) else old(bucketAccount)
    {
      if row.Some? {
        var r := row.value;
        prefixes := prefixes[r := (if r in prefixes then prefixes[r] else 0) + 1];
        bucketAccount := Attribute(bucketAccount, r.bucket, log.accountId);
      }
    }

    /** The body of the loop over the windows. */
    method AddWindow(p: Period, ghost before: seq<Log>, log: Log, ghost done: Windows)
      requires Valid() && Contents().AllTrack(env, before, log, done) && IsObjectRequest(log.action) && Some(p) !in done
      modifies this`prefixes, this`bucketAccount, counters, counters.repr, users, users.repr
      ensures Valid() && fresh(counters.repr - old(counters.repr)) && fresh(users.repr - old(users.repr))
      ensures Contents().AllTrack(env, before, log, done + {Some(p)})
    {
      var rows := RowsOf(None, None, None, None, None, None);
      if InWindow(log.at, env.now, p) {
        var bid := BucketOf(env, log);
        rows := RowsOf(
          Some(PlatformRow(p)),
          if log.accountId.Some? then Some(AccountRow(log.accountId.value, p)) else None,
          if bid.Some? then Some(BucketRow(bid.value, p)) else None,
          if log.accountId.Some? && log.userId.Some? then Some(UserRow(log.userId.value, log.accountId.value, p)) else None,
          if IsKeyedTransfer(env, log) then Some(PrefixRow(bid.value, FirstLevelPrefix(log.key.value), p)) else None,
          None);
      }
      AllAdvance(Contents(), rows, env, before, log, done, Some(p));
      Bump(rows, log);
    }

    /** After the windows, the day's counter. */
    method AddDay(ghost before: seq<Log>, log: Log, ghost done: Windows)
      requires Valid() && Contents().AllTrack(env, before, log, done) && IsObjectRequest(log.action) && None !in done
      modifies this`prefixes, this`bucketAccount, counters, counters.repr, users, users.repr
      ensures Valid() && fresh(counters.repr - old(counters.repr)) && fresh(users.repr - old(users.repr))
      ensures Contents().AllTrack(env, before, log, done + {None})
    {
      var day := DayOf(log.at);
      var rows := RowsOf(None, None, None, None, None, if day >= DayCut(env.now) then Some(DayRow(day)) else None);
      AllAdvance(Contents(), rows, env, before, log, done, None);
      Bump(rows, log);
    }

    /** The loop over the windows, in whatever order the map yields them. */
    method AddWindows(ghost before: seq<Log>, log: Log) returns (ghost done: Windows)
      requires Valid() && Contents().AllTrack(env, before, log, {}) && IsObjectRequest(log.action)
      modifies this`prefixes, this`bucketAccount, counters, counters.repr, users, users.repr
      ensures Valid() && fresh(counters.repr - old(counters.repr)) && fresh(users.repr - old(users.repr))
      ensures Contents().AllTrack(env, before, log, done) && None !in done && forall p: Period :: Some(p) in done
    {
      AllPeriods();
      var todo := PERIODS;
      done := {};
      while todo != {}
        invariant Valid() && fresh(counters.repr - old(counters.repr)) && fresh(users.repr - old(users.repr))
        invariant Contents().AllTrack(env, before, log, done)
        invariant forall p :: Some(p) in done <==> p !in todo
        invariant None !in done
        decreases |todo|
      {
        var p :| p in todo;
        AddWindow(p, before, log, done);
        todo, done := todo - {p}, done + {Some(p)};
      }
    }

    /** One log: the windows, then the day. */
    method AddLog(ghost before: seq<Log>, log: Log)
      requires Valid() && Contents().AllRight(env, before) && IsObjectRequest(log.action)
      modifies this`prefixes, this`bucketAccount, counters, counters.repr, users, users.repr
      ensures Valid() && fresh(counters.repr - old(counters.repr)) && fresh(users.repr - old(users.repr))
      ensures Contents().AllRight(env, before + [log])
    {
      Begin(Contents(), env, before, log);
      ghost var done := AddWindows(before, log);
      AddDay(before, log, done);
      AllWindowsDone(done);
      End(Contents(), env, before, log);
    }

    /** The pass over the logs, in any row order: every table is exactly what the logs say. */
    method Aggregate(logs: seq<Log>)
      requires Valid() && Contents().AllRight(env, [])
      modifies this`prefixes, this`bucketAccount, counters, counters.repr, users, users.repr
      ensures Valid() && Contents().AllRight(env, logs)
    {
      assert logs[..0] == [];
      for i := 0 to |logs|
        invariant Valid() && fresh(counters.repr - old(counters.repr)) && fresh(users.repr - old(users.repr))
        invariant Contents().AllRight(env, logs[..i])
      {
        assert logs[..i + 1] == logs[..i] + [logs[i]];
        if !IsObjectRequest(logs[i].action) {
          Ignored(Contents(), env, logs[..i], logs[i]);
          continue;
        }
        AddLog(logs[..i], logs[i]);
      }
      assert logs[..|logs|] == logs;
    }
  }
}
