/**
 * The one-pass request aggregator. Six tables are filled in place, counter by
 * counter, with the time windows visited in an arbitrary order for each log;
 * every row ends up as the plain count, sum and set of the logs that belong to it.
 */
module Aggregate {
  import opened Base
  import opened Sched
  import opened Requests

  const DAY := 24 * HOUR
  const DAILY_ROLLUP_DAYS := 30

  /** What is fixed during a pass: the clock, the bucket ids by name, and the user names. */
  datatype Env = Env(now: int, nameToId: map<string, int>, names: map<int, string>)

  /** Midnight (UTC) of the day of t. */
  function DayOf(t: int): int {
    t - t % DAY
  }

  function DayCut(now: int): int {
    DayOf(now - DAILY_ROLLUP_DAYS * DAY)
  }

  // ---- Rows, and the logs that belong to them ----

  datatype Table = Platform | Accounts | Buckets | Users | Prefixes | Daily

  datatype Row =
    | PlatformRow(period: Period)
    | AccountRow(account: int, period: Period)
    | BucketRow(bucket: int, period: Period)
    | UserRow(user: int, account: int, period: Period)
    | PrefixRow(bucket: int, prefix: string, period: Period)
    | DayRow(day: int)
  {
    function Table(): Table {
      match this
      case PlatformRow(_) => Platform
      case AccountRow(_, _) => Accounts
      case BucketRow(_, _) => Buckets
      case UserRow(_, _, _) => Users
      case PrefixRow(_, _, _) => Prefixes
      case DayRow(_) => Daily
    }

    function Window(): Option<Period> {
      if DayRow? then None else Some(period)
    }
  }

  function BucketOf(env: Env, l: Log): Option<int> {
    if l.bucket.Some? && l.bucket.value in env.nameToId then Some(env.nameToId[l.bucket.value]) else None
  }

  /** A put or a get of a named object in a known bucket. */
  predicate IsKeyedTransfer(env: Env, l: Log) {
    BucketOf(env, l).Some? && l.key.Some? && (OpOf(l.action) == Put || OpOf(l.action) == Get)
  }

  predicate Counted(env: Env, l: Log, p: Period) {
    IsObjectRequest(l.action) && InWindow(l.at, env.now, p)
  }

  /** The log belongs to the row. */
  predicate Hits(env: Env, l: Log, r: Row) {
    match r
    case PlatformRow(p) => Counted(env, l, p)
    case AccountRow(a, p) => Counted(env, l, p) && l.accountId == Some(a)
    case BucketRow(b, p) => Counted(env, l, p) && BucketOf(env, l) == Some(b)
    case UserRow(u, a, p) => Counted(env, l, p) && l.accountId == Some(a) && l.userId == Some(u)
    case PrefixRow(b, x, p) =>
      Counted(env, l, p) && IsKeyedTransfer(env, l) && BucketOf(env, l) == Some(b) && FirstLevelPrefix(l.key.value) == x
    case DayRow(d) => IsObjectRequest(l.action) && DayOf(l.at) == d && d >= DayCut(env.now)
  }

  /** The logs that belong to a row, in order. */
  function Select(env: Env, logs: seq<Log>, r: Row): seq<Log> {
    if logs == [] then []
    else
      var l := logs[|logs| - 1];
      Select(env, logs[..|logs| - 1], r) + if Hits(env, l, r) then [l] else []
  }

  lemma SelectOneMore(env: Env, logs: seq<Log>, l: Log, r: Row)
    ensures Select(env, logs + [l], r) == Select(env, logs, r) + if Hits(env, l, r) then [l] else []
  {
    assert (logs + [l])[..|logs|] == logs;
  }

  /** The row of a table that a log belongs to in one window: there is at most one. */
  function RowFor(env: Env, l: Log, t: Table, w: Option<Period>): Option<Row> {
    if !IsObjectRequest(l.action) then None
    else match w
      case None =>
        if t == Daily && DayOf(l.at) >= DayCut(env.now) then Some(DayRow(DayOf(l.at))) else None
      case Some(p) =>
        if !InWindow(l.at, env.now, p) then None
        else match t
          case Platform => Some(PlatformRow(p))
          case Accounts => if l.accountId.Some? then Some(AccountRow(l.accountId.value, p)) else None
          case Buckets => if BucketOf(env, l).Some? then Some(BucketRow(BucketOf(env, l).value, p)) else None
          case Users =>
            if l.accountId.Some? && l.userId.Some? then Some(UserRow(l.userId.value, l.accountId.value, p)) else None
          case Prefixes =>
            if IsKeyedTransfer(env, l) then Some(PrefixRow(BucketOf(env, l).value, FirstLevelPrefix(l.key.value), p)) else None
          case Daily => None
  }

  lemma HitsIsRowFor(env: Env, l: Log, r: Row)
    ensures Hits(env, l, r) <==> RowFor(env, l, r.Table(), r.Window()) == Some(r)
  {
  }

  // ---- Tables in the middle of a pass ----

  type Windows = set<Option<Period>>

  /** The logs a row should have seen when `log` has been added for the windows in `done`. */
  function Seen(env: Env, before: seq<Log>, log: Log, done: Windows, r: Row): seq<Log> {
    Select(env, if r.Window() in done then before + [log] else before, r)
  }

  /**
   * The table holds, for each of its rows, the value of exactly the logs the row
   * should have seen, and no row that has seen none (platform rows always exist).
   */
  ghost predicate Tracks<V>(view: map<Row, V>, value: seq<Log> -> V, t: Table, env: Env, before: seq<Log>, log: Log,
        done: Windows) {
    forall r: Row :: r.Table() == t ==>
      var seen := Seen(env, before, log, done, r);
      && (r in view <==> t == Platform || seen != [])
      && (r in view ==> view[r] == value(seen))
  }

  /** The table is right for the logs of a whole pass. */
  ghost predicate IsTable<V>(view: map<Row, V>, value: seq<Log> -> V, t: Table, env: Env, logs: seq<Log>) {
    forall r: Row :: r.Table() == t ==>
      && (r in view <==> t == Platform || Select(env, logs, r) != [])
      && (r in view ==> view[r] == value(Select(env, logs, r)))
  }

  lemma TracksStarts<V>(view: map<Row, V>, value: seq<Log> -> V, t: Table, env: Env, before: seq<Log>, log: Log)
    requires IsTable(view, value, t, env, before)
    ensures Tracks(view, value, t, env, before, log, {})
  {
  }

  const ALL_WINDOWS: Windows := {None, Some(Last24h), Some(Last7d), Some(Last30d)}

  lemma WindowIsListed(r: Row)
    ensures r.Window() in ALL_WINDOWS
  {
    if !r.DayRow? {
      assert r.period.Last24h? || r.period.Last7d? || r.period.Last30d?;
    }
  }

  lemma TracksEnds<V>(view: map<Row, V>, value: seq<Log> -> V, t: Table, env: Env, before: seq<Log>, log: Log)
    requires Tracks(view, value, t, env, before, log, ALL_WINDOWS)
    ensures IsTable(view, value, t, env, before + [log])
  {
    forall r: Row | r.Table() == t
      ensures Seen(env, before, log, ALL_WINDOWS, r) == Select(env, before + [log], r)
    {
      WindowIsListed(r);
    }
  }

  /** The views agree on one table's rows. */
  ghost predicate SameRows<V>(view: map<Row, V>, view': map<Row, V>, t: Table) {
    forall r: Row :: r.Table() == t ==> (r in view' <==> r in view) && (r in view ==> view'[r] == view[r])
  }

  /** Going on to another window changes at most the one row the log belongs to there. */
  lemma TracksAdvances<V>(view: map<Row, V>, view': map<Row, V>, value: seq<Log> -> V, t: Table, env: Env,
                          before: seq<Log>, log: Log, done: Windows, w: Option<Period>)
    requires Tracks(view, value, t, env, before, log, done) && w !in done
    requires var r := RowFor(env, log, t, w);
      SameRows(if r.None? then view else view[r.value := value(Select(env, before, r.value) + [log])], view', t)
    ensures Tracks(view', value, t, env, before, log, done + {w})
  {
    forall r: Row | r.Table() == t
      ensures var seen := Seen(env, before, log, done + {w}, r);
        && (r in view' <==> t == Platform || seen != [])
        && (r in view' ==> view'[r] == value(seen))
    {
      SelectOneMore(env, before, log, r);
      HitsIsRowFor(env, log, r);
      assert Select(env, before, r) + [] == Select(env, before, r);
    }
  }

  // ---- Which account a bucket is used by ----

  /** The log says which account uses bucket b. */
  predicate Claims(env: Env, l: Log, b: int) {
    IsObjectRequest(l.action) && IsKeyedTransfer(env, l) && BucketOf(env, l) == Some(b) && l.accountId.Some?
  }

  ghost predicate ClaimsWithin(env: Env, l: Log, b: int, done: Windows) {
    Claims(env, l, b) && exists p :: Some(p) in done && InWindow(l.at, env.now, p)
  }

  ghost function Claimants(env: Env, logs: seq<Log>, b: int): set<int> {
    set l | l in logs && ClaimsWithin(env, l, b, ALL_WINDOWS) :: l.accountId.value
  }

  ghost predicate Plural(s: set<int>) {
    exists y, z :: y in s && z in s && y != z
  }

  /** b is listed iff someone claims it, with the one account that does, or none when several do. */
  ghost predicate Judged(m: map<int, Option<int>>, b: int, claimants: set<int>) {
    && (b in m <==> claimants != {})
    && (b in m ==> match m[b]
         case Some(a) => claimants == {a}
         case None => Plural(claimants))
  }

  ghost predicate Attributes(m: map<int, Option<int>>, env: Env, before: seq<Log>, log: Log, done: Windows) {
    forall b: int :: Judged(m, b, Claimants(env, before, b) + if ClaimsWithin(env, log, b, done) then {log.accountId.value} else {})
  }

  ghost predicate IsAttribution(m: map<int, Option<int>>, env: Env, logs: seq<Log>) {
    forall b: int :: Judged(m, b, Claimants(env, logs, b))
  }

  lemma ClaimantsOneMore(env: Env, logs: seq<Log>, l: Log, b: int)
    ensures Claimants(env, logs + [l], b)
      == Claimants(env, logs, b) + if ClaimsWithin(env, l, b, ALL_WINDOWS) then {l.accountId.value} else {}
  {
  }

  /** setBucketAccount as a function of the map: the first account is kept, a second one voids the entry for good. */
  function Attribute(m: map<int, Option<int>>, b: int, account: Option<int>): map<int, Option<int>> {
    if account.None? then m
    else if b !in m then m[b := account]
    else if m[b].Some? && m[b] != account then m[b := None]
    else m
  }

  lemma AttributeJudges(m: map<int, Option<int>>, b: int, a: int, claimants: set<int>)
    requires Judged(m, b, claimants)
    ensures Judged(Attribute(m, b, Some(a)), b, claimants + {a})
  {
    if b in m {
      if m[b].None? {
        var y, z :| y in claimants && z in claimants && y != z;
        assert y in claimants + {a} && z in claimants + {a};
      } else if m[b] != Some(a) {
        assert m[b].value in claimants + {a} && a in claimants + {a};
      } else {
        assert claimants + {a} == {a};
      }
    } else {
      assert claimants + {a} == {a};
    }
  }

  // ---- Tables of counters ----

  function Bumped(view: map<Row, Tally>, r: Option<Row>, l: Log): map<Row, Tally> {
    if r.None? then view else view[r.value := Plus(if r.value in view then view[r.value] else ZERO, l)]
  }

  function NameOf(names: map<int, string>, user: int): Option<string> {
    if user in names then Some(names[user]) else None
  }

  /** A user's row as it is written out. */
  datatype UserLine = UserLine(username: Option<string>, value: UserTally)

  function UserBumped(view: map<Row, UserTally>, r: Option<Row>, l: Log): map<Row, UserTally> {
    if r.None? then view else view[r.value := UserPlus(if r.value in view then view[r.value] else USER_ZERO, l)]
  }

  /** A map to counters, each entry with a counter of its own. */
  class CounterTable {
    var rows: map<Row, Counter>
    ghost var repr: set<Counter>
    ghost var view: map<Row, Tally>   // the rows' values

    ghost predicate Valid()
      reads this, repr
    {
      && view.Keys == rows.Keys
      && (forall r :: r in rows ==> rows[r] in repr && rows[r].Value() == view[r])
      && (forall r, r' :: r in rows && r' in rows && r != r' ==> rows[r] != rows[r'])
    }

    constructor ()
      ensures Valid() && repr == {} && view == map[]
    {
      rows, repr, view := map[], {}, map[];
    }

    /** The values, as they are read to be written out. */
    method Read() returns (values: map<Row, Tally>)
      requires Valid()
      ensures values == view
    {
      values := map r | r in rows :: rows[r].Value();
    }

    /** A missing entry starts at zero. */
    method Ensure(r: Row)
      requires Valid()
      modifies this
      ensures Valid() && r in rows && fresh(repr - old(repr))
      ensures view == if r in old(rows) then old(view) else old(view)[r := ZERO]
    {
      if r !in rows {
        var c := new Counter();
        rows, repr, view := rows[r := c], repr + {c}, view[r := ZERO];
      }
    }

    /** The row, if any, takes the log. */
    method Add(r: Option<Row>, l: Log)
      requires Valid()
      modifies this, repr
      ensures Valid() && fresh(repr - old(repr))
      ensures view == Bumped(old(view), r, l)
    {
      if r.Some? {
        Ensure(r.value);
        Into(r.value, l);
      }
    }

    /** Up to four rows take the log. */
    method AddRows(a: Option<Row>, b: Option<Row>, c: Option<Row>, d: Option<Row>, l: Log)
      requires Valid()
      modifies this, repr
      ensures Valid() && fresh(repr - old(repr))
      ensures view == Bumped(Bumped(Bumped(Bumped(old(view), a, l), b, l), c, l), d, l)
    {
      AddTwo(a, b, l);
      AddTwo(c, d, l);
    }

    method AddTwo(a: Option<Row>, b: Option<Row>, l: Log)
      requires Valid()
      modifies this, repr
      ensures Valid() && fresh(repr - old(repr))
      ensures view == Bumped(Bumped(old(view), a, l), b, l)
    {
      Add(a, l);
      Add(b, l);
    }

    method Into(r: Row, l: Log)
      requires Valid() && r in rows
      modifies this`view, rows[r]
      ensures Valid() && view == old(view)[r := Plus(old(view)[r], l)]
    {
      rows[r].Add(l);
      view := view[r := Plus(view[r], l)];
    }
  }

  /** The same for users, each with the name the user table has for it. */
  class UserTable {
    const names: map<int, string>
    var rows: map<Row, UserCounter>
    ghost var repr: set<UserCounter>
    ghost var view: map<Row, UserTally>   // the rows' values

    ghost predicate Valid()
      reads this, repr
    {
      && view.Keys == rows.Keys
      && (forall r :: r in rows ==> rows[r] in repr && rows[r].Value() == view[r])
      && (forall r, r' :: r in rows && r' in rows && r != r' ==> rows[r] != rows[r'])
    }

    /** Every row is a user's, and carries that user's name if there is one. */
    ghost predicate Named()
      reads this
    {
      forall r :: r in rows ==> r.UserRow? && rows[r].username == NameOf(names, r.user)
    }

    constructor (names: map<int, string>)
      ensures Valid() && Named() && repr == {} && view == map[] && this.names == names
    {
      this.names := names;
      rows, repr, view := map[], {}, map[];
    }

    /** The values and names, as they are read to be written out. */
    method Read() returns (lines: map<Row, UserLine>)
      requires Valid() && Named()
      ensures lines.Keys == view.Keys
      ensures forall r :: r in lines ==> r.UserRow? && lines[r] == UserLine(NameOf(names, r.user), view[r])
    {
      lines := map r | r in rows :: UserLine(rows[r].username, rows[r].Value());
    }

    /** A missing entry starts at zero, with the user's name when there is one. */
    method Ensure(r: Row)
      requires Valid() && Named() && r.UserRow?
      modifies this
      ensures Valid() && Named() && r in rows && fresh(repr - old(repr))
      ensures view == if r in old(rows) then old(view) else old(view)[r := USER_ZERO]
    {
      if r !in rows {
        var c := new UserCounter(NameOf(names, r.user));
        rows, repr, view := rows[r := c], repr + {c}, view[r := USER_ZERO];
      }
    }

    /** The row, if any, takes the log. */
    method Add(r: Option<Row>, l: Log)
      requires Valid() && Named() && (r.Some? ==> r.value.UserRow?)
      modifies this, repr
      ensures Valid() && Named() && fresh(repr - old(repr))
      ensures view == UserBumped(old(view), r, l)
    {
      if r.Some? {
        Ensure(r.value);
        Into(r.value, l);
      }
    }

    method Into(r: Row, l: Log)
      requires Valid() && r in rows
      modifies this`view, rows[r]
      ensures Valid() && view == old(view)[r := UserPlus(old(view)[r], l)]
    {
      rows[r].Add(l);
      view := view[r := UserPlus(view[r], l)];
    }
  }
}
