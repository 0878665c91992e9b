/** Before the pass, bucket names are indexed; after it, bucket and prefix rows are written out with their account. */
module Publishing {
  import opened Base
  import opened Requests
  import opened Aggregate
  import opened Aggregator
  import opened Windows
  import Conservation

  // ---- The index of bucket names ----

  ghost predicate IsIndex(index: map<string, int>, buckets: map<int, string>) {
    && (forall n :: n in index ==> index[n] in buckets && buckets[index[n]] == n)
    && (forall id :: id in buckets ==> buckets[id] in index)
  }

  /** Buckets in whatever order the map yields them; of two with one name the later stays. */
  method IndexNames(buckets: map<int, string>) returns (index: map<string, int>)
    ensures IsIndex(index, buckets)
  {
    index := map[];
    var todo := buckets.Keys;
    while todo != {}
      invariant todo <= buckets.Keys
      invariant forall n :: n in index ==> index[n] in buckets && buckets[index[n]] == n
      invariant forall id :: id in buckets && id !in todo ==> buckets[id] in index
      decreases |todo|
    {
      var id := Pick(todo);
      index := index[buckets[id] := id];
      todo := todo - {id};
    }
  }

  /** Every bucket can be found by its name just when no two share one. */
  lemma AllBucketsAreFoundIffNamesAreUnique(index: map<string, int>, buckets: map<int, string>)
    requires IsIndex(index, buckets)
    ensures (forall id :: id in buckets ==> index[buckets[id]] == id)
      <==> (forall i, j :: i in buckets && j in buckets && buckets[i] == buckets[j] ==> i == j)
  {
    if forall i, j :: i in buckets && j in buckets && buckets[i] == buckets[j] ==> i == j {
      forall id | id in buckets ensures index[buckets[id]] == id {
        assert buckets[index[buckets[id]]] == buckets[id];
      }
    }
  }

  // ---- The rows written out ----

  /** A counter as it is written: two tables leave out columns. */
  datatype Line = Line(uploadBytes: int, downloadBytes: int, requests: int, gets: int, puts: int, deletes: int,
                       errors: Option<int>, activeUsers: Option<nat>)

  function LineOf(t: Table, c: Tally): Line {
    Line(c.uploadBytes, c.downloadBytes, c.requests, c.gets, c.puts, c.deletes,
         if t == Buckets then None else Some(c.errors),
         if t == Platform || t == Accounts then Some(|c.active|) else None)
  }

  /** What bucket and prefix rows are written with besides their numbers. */
  datatype Owned<T> = Owned(account: Option<int>, value: T)

  /** A bucket row has the bucket's name too. */
  datatype BucketLine = BucketLine(name: Option<string>, line: Line)

  function BucketLineOf(buckets: map<int, string>, r: Row, c: Tally): BucketLine {
    BucketLine(if r.BucketRow? && r.bucket in buckets then Some(buckets[r.bucket]) else None, LineOf(Buckets, c))
  }

  /** Everything written. */
  datatype Report = Report(platform: map<Row, Line>, daily: map<Row, Line>, accounts: map<Row, Line>,
                           buckets: map<Row, Owned<BucketLine>>, users: map<Row, UserLine>, prefixes: map<Row, Owned<int>>)

  /** The account of a bucket or prefix row: that of its bucket, if it has one. */
  function AccountOf(bucketAccount: map<int, Option<int>>, r: Row): Option<int> {
    match r
    case BucketRow(b, _) => if b in bucketAccount then bucketAccount[b] else None
    case PrefixRow(b, _, _) => if b in bucketAccount then bucketAccount[b] else None
    case _ => None
  }

  predicate IsKnown(buckets: map<int, string>, r: Row) {
    match r
    case BucketRow(b, _) => b in buckets
    case PrefixRow(b, _, _) => b in buckets
    case _ => false
  }

  /** The loop that writes the platform, daily, account or user rows. */
  method Write<V, W>(view: map<Row, V>, t: Table, line: V -> W) returns (written: map<Row, W>)
    ensures forall r :: r in written <==> r in view && r.Table() == t
    ensures forall r :: r in written ==> written[r] == line(view[r])
  {
    written := map[];
    var todo := set r | r in view && r.Table() == t;
    while todo != {}
      invariant forall r :: r in todo ==> r in view && r.Table() == t
      invariant forall r :: r in written <==> r in view && r.Table() == t && r !in todo
      invariant forall r :: r in written ==> written[r] == line(view[r])
      decreases |todo|
    {
      var r := Pick(todo);
      todo := todo - {r};
      written := written[r := line(view[r])];
    }
  }

  /** The loop that writes the bucket or prefix rows, skipping buckets that are not there. */
  method WriteOwned<V, W>(view: map<Row, V>, t: Table, line: (Row, V) -> W, buckets: map<int, string>,
        bucketAccount: map<int, Option<int>>)
    returns (written: map<Row, Owned<W>>)
    ensures forall r :: r in written <==>
      r in view && r.Table() == t && (r.BucketRow? || r.PrefixRow?) && r.bucket in buckets
    ensures forall r :: r in written ==> written[r] == Owned(AccountOf(bucketAccount, r), line(r, view[r]))
  {
    written := map[];
    var todo := set r | r in view && r.Table() == t;
    while todo != {}
      invariant forall r :: r in todo ==> r in view && r.Table() == t
      invariant forall r :: r in written <==> r in view && r.Table() == t && r !in todo && IsKnown(buckets, r)
      invariant forall r :: r in written ==> written[r] == Owned(AccountOf(bucketAccount, r), line(r, view[r]))
      decreases |todo|
    {
      var r := Pick(todo);
      todo := todo - {r};
      if !IsKnown(buckets, r) {
        continue;
      }
      written := written[r := Owned(AccountOf(bucketAccount, r), line(r, view[r]))];
    }
  }

  // ---- What the report says of the logs ----

  lemma SelectedHit(env: Env, logs: seq<Log>, r: Row)
    requires Select(env, logs, r) != []
    ensures Hits(env, Select(env, logs, r)[0], r)
  {
    Conservation.SelectedIff(env, logs, r, Select(env, logs, r)[0]);
  }

  /** The skipping never happens: rows are only ever kept for indexed buckets. */
  lemma NoRowIsSkipped(v: Tables, env: Env, logs: seq<Log>, buckets: map<int, string>)
    requires v.AllRight(env, logs) && IsIndex(env.nameToId, buckets)
    ensures forall r :: r in v.counters && r.Table() == Buckets ==> IsKnown(buckets, r)
    ensures forall r :: r in v.prefixes && r.Table() == Prefixes ==> IsKnown(buckets, r)
  {
    forall r | r in v.counters && r.Table() == Buckets ensures IsKnown(buckets, r) {
      CountersAreTallies(v, env, logs, r);
      SelectedHit(env, logs, r);
    }
    forall r | r in v.prefixes && r.Table() == Prefixes ensures IsKnown(buckets, r) {
      assert IsTable(v.prefixes, SizeOf, Prefixes, env, logs);
      SelectedHit(env, logs, r);
    }
  }

  /** A table of the report: a row exactly where some log belongs (platform rows always), which says what is true of them. */
  ghost predicate Shows<W>(written: map<Row, W>, t: Table, env: Env, logs: seq<Log>, says: (Row, seq<Log>, W) -> bool) {
    && (forall r :: r in written ==> r.Table() == t)
    && (forall r: Row :: r.Table() == t ==>
          && (r in written <==> t == Platform || Select(env, logs, r) != [])
          && (r in written ==> says(r, Select(env, logs, r), written[r])))
  }

  /** Column by column: the figures are those of the logs. */
  ghost predicate HasFigures(line: Line, t: Table, sel: seq<Log>) {
    && line.requests == |sel|
    && line.gets == Total(sel, CountOf(Get)) && line.puts == Total(sel, CountOf(Put))
    && line.deletes == Total(sel, CountOf(Delete))
    && line.downloadBytes == Total(sel, BytesOf(Get)) && line.uploadBytes == Total(sel, BytesOf(Put))
    && (if t == Buckets then line.errors == None else line.errors == Some(Total(sel, Errors)))
    && (if t == Platform || t == Accounts then line.activeUsers == Some(|Actors(sel)|) else line.activeUsers == None)
  }

  ghost predicate HasUserFigures(value: UserTally, sel: seq<Log>) {
    && value.uploads == Total(sel, CountOf(Put)) && value.downloads == Total(sel, CountOf(Get))
    && value.deletes == Total(sel, CountOf(Delete)) && value.accesses == Total(sel, Accesses)
    && value.uploadBytes == Total(sel, BytesOf(Put)) && value.downloadBytes == Total(sel, BytesOf(Get))
  }

  /** The table has this name for the id, if any. */
  ghost predicate IsNameIn(name: Option<string>, names: map<int, string>, id: int) {
    (name.Some? <==> id in names) && (name.Some? ==> names[id] == name.value)
  }

  ghost function CounterSays(t: Table): (Row, seq<Log>, Line) -> bool {
    (r, sel, line) => HasFigures(line, t, sel)
  }

  ghost function UserSays(env: Env): (Row, seq<Log>, UserLine) -> bool {
    (r: Row, sel: seq<Log>, line: UserLine) =>
      r.UserRow? && IsNameIn(line.username, env.names, r.user) && HasUserFigures(line.value, sel)
  }

  lemma LinesHaveFigures(t: Table, sel: seq<Log>)
    ensures HasFigures(LineOf(t, TallyOf(sel)), t, sel)
  {
    LogsAreTheirNumber(sel);
  }

  /** The account is written exactly if it is the only one whose keyed puts and gets the bucket saw. */
  ghost predicate IsOwner(account: Option<int>, env: Env, logs: seq<Log>, r: Row) {
    (r.BucketRow? || r.PrefixRow?) && forall a :: account == Some(a) <==> Claimants(env, logs, r.bucket) == {a}
  }

  /** The same for tables whose rows have an account. */
  ghost predicate ShowsOwned<W>(written: map<Row, Owned<W>>, t: Table, env: Env, logs: seq<Log>,
        says: (Row, seq<Log>, W) -> bool) {
    && (forall r :: r in written ==> r.Table() == t && IsOwner(written[r].account, env, logs, r))
    && (forall r: Row :: r.Table() == t ==>
          && (r in written <==> Select(env, logs, r) != [])
          && (r in written ==> says(r, Select(env, logs, r), written[r].value)))
  }

  ghost function BucketSays(buckets: map<int, string>): (Row, seq<Log>, BucketLine) -> bool {
    (r: Row, sel: seq<Log>, line: BucketLine) =>
      r.BucketRow? && IsNameIn(line.name, buckets, r.bucket) && HasFigures(line.line, Buckets, sel)
  }

  ghost function PrefixSays(): (Row, seq<Log>, int) -> bool {
    (r, sel, n) => n == |sel|
  }

  /** The name in a bucket row is the one that every log of the row carries. */
  lemma {:induction false} BucketNamesAreTheLogs(env: Env, buckets: map<int, string>, logs: seq<Log>, r: Row, l: Log)
    requires IsIndex(env.nameToId, buckets) && r.BucketRow? && l in Select(env, logs, r)
    ensures r.bucket in buckets && l.bucket == Some(buckets[r.bucket])
  {
    SelectedIsHit(env, logs, r, l);
  }

  lemma {:induction false} SelectedIsHit(env: Env, logs: seq<Log>, r: Row, l: Log)
    requires l in Select(env, logs, r)
    ensures Hits(env, l, r)
  {
    Conservation.SelectedIff(env, logs, r, l);
  }

  /** The report says exactly what the logs say. */
  ghost predicate IsReport(report: Report, env: Env, buckets: map<int, string>, logs: seq<Log>) {
    && Shows(report.platform, Platform, env, logs, CounterSays(Platform))
    && Shows(report.daily, Daily, env, logs, CounterSays(Daily))
    && Shows(report.accounts, Accounts, env, logs, CounterSays(Accounts))
    && ShowsOwned(report.buckets, Buckets, env, logs, BucketSays(buckets))
    && Shows(report.users, Users, env, logs, UserSays(env))
    && ShowsOwned(report.prefixes, Prefixes, env, logs, PrefixSays())
  }

  lemma CountersAreShown(v: Tables, env: Env, logs: seq<Log>, t: Table, written: map<Row, Line>)
    requires IsTable(v.counters, TallyOf, t, env, logs)
    requires forall r :: r in written <==> r in v.counters && r.Table() == t
    requires forall r :: r in written ==> written[r] == LineOf(t, v.counters[r])
    ensures Shows(written, t, env, logs, CounterSays(t))
  {
    forall r | r in written ensures HasFigures(written[r], t, Select(env, logs, r)) {
      LinesHaveFigures(t, Select(env, logs, r));
    }
  }

  lemma OwnersAreShown(v: Tables, env: Env, logs: seq<Log>, r: Row)
    requires v.AllRight(env, logs) && (r.BucketRow? || r.PrefixRow?)
    ensures IsOwner(AccountOf(v.bucketAccount, r), env, logs, r)
  {
    forall a ensures AccountOf(v.bucketAccount, r) == Some(a) <==> Claimants(env, logs, r.bucket) == {a} {
      AttributedIffOnlyClaimant(v, env, logs, r.bucket, a);
    }
  }

  lemma BucketsAreShown(v: Tables, env: Env, logs: seq<Log>, buckets: map<int, string>,
        written: map<Row, Owned<BucketLine>>)
    requires v.AllRight(env, logs)
    requires forall r :: r in written <==> r in v.counters && r.Table() == Buckets
    requires forall r :: r in written ==>
      written[r] == Owned(AccountOf(v.bucketAccount, r), BucketLineOf(buckets, r, v.counters[r]))
    ensures ShowsOwned(written, Buckets, env, logs, BucketSays(buckets))
  {
    forall r | r in written ensures IsOwner(written[r].account, env, logs, r) {
      OwnersAreShown(v, env, logs, r);
    }
    assert IsTable(v.counters, TallyOf, Buckets, env, logs);
    forall r | r in written ensures BucketSays(buckets)(r, Select(env, logs, r), written[r].value) {
      LinesHaveFigures(Buckets, Select(env, logs, r));
    }
  }

  lemma PrefixesAreShown(v: Tables, env: Env, logs: seq<Log>, written: map<Row, Owned<int>>)
    requires v.AllRight(env, logs)
    requires forall r :: r in written <==> r in v.prefixes && r.Table() == Prefixes
    requires forall r :: r in written ==> written[r] == Owned(AccountOf(v.bucketAccount, r), v.prefixes[r])
    ensures ShowsOwned(written, Prefixes, env, logs, PrefixSays())
  {
    forall r | r in written ensures IsOwner(written[r].account, env, logs, r) {
      OwnersAreShown(v, env, logs, r);
    }
    assert IsTable(v.prefixes, SizeOf, Prefixes, env, logs);
  }

  lemma UsersAreShown(v: Tables, env: Env, logs: seq<Log>, lines: map<Row, UserLine>, written: map<Row, UserLine>)
    requires IsTable(v.users, UserTallyOf, Users, env, logs)
    requires lines.Keys == v.users.Keys && forall r :: r in written <==> r in lines && r.Table() == Users
    requires forall r :: r in written ==> r.UserRow? && written[r] == UserLine(NameOf(env.names, r.user), v.users[r])
    ensures Shows(written, Users, env, logs, UserSays(env))
  {
    forall r | r in written ensures UserSays(env)(r, Select(env, logs, r), written[r]) {
      var sel := Select(env, logs, r);
      assert v.users[r] == UserTallyOf(sel) && HasUserFigures(UserTallyOf(sel), sel);
    }
  }

  // ---- The job ----

  method Collect(env: Env, logs: seq<Log>) returns (agg: Aggregator)
    ensures agg.Valid() && agg.env == env && agg.Contents().AllRight(env, logs)
  {
    agg := new Aggregator(env);
    agg.Open();
    agg.Aggregate(logs);
  }

  /** The platform, daily and account tables. */
  method WriteCounters(view: map<Row, Tally>, env: Env, ghost v: Tables, ghost logs: seq<Log>)
    returns (platform: map<Row, Line>, daily: map<Row, Line>, accounts: map<Row, Line>)
    requires v.AllRight(env, logs) && view == v.counters
    ensures Shows(platform, Platform, env, logs, CounterSays(Platform))
    ensures Shows(daily, Daily, env, logs, CounterSays(Daily))
    ensures Shows(accounts, Accounts, env, logs, CounterSays(Accounts))
  {
    platform := Write(view, Platform, c => LineOf(Platform, c));
    CountersAreShown(v, env, logs, Platform, platform);
    daily := Write(view, Daily, c => LineOf(Daily, c));
    CountersAreShown(v, env, logs, Daily, daily);
    accounts := Write(view, Accounts, c => LineOf(Accounts, c));
    CountersAreShown(v, env, logs, Accounts, accounts);
  }

  /** The bucket and prefix tables. */
  method WriteBuckets(view: map<Row, Tally>, prefixes: map<Row, int>, bucketAccount: map<int, Option<int>>,
        buckets: map<int, string>, env: Env, ghost v: Tables, ghost logs: seq<Log>)
    returns (bucketRows: map<Row, Owned<BucketLine>>, prefixRows: map<Row, Owned<int>>)
    requires v.AllRight(env, logs) && IsIndex(env.nameToId, buckets)
    requires view == v.counters && prefixes == v.prefixes && bucketAccount == v.bucketAccount
    ensures ShowsOwned(bucketRows, Buckets, env, logs, BucketSays(buckets))
    ensures ShowsOwned(prefixRows, Prefixes, env, logs, PrefixSays())
  {
    NoRowIsSkipped(v, env, logs, buckets);
    bucketRows := WriteOwned(view, Buckets, (r, c) => BucketLineOf(buckets, r, c), buckets, bucketAccount);
    BucketsAreShown(v, env, logs, buckets, bucketRows);
    prefixRows := WriteOwned(prefixes, Prefixes, (r, n) => n, buckets, bucketAccount);
    PrefixesAreShown(v, env, logs, prefixRows);
  }

  /** The job from end to end: index the names, pass over the logs, write all tables. */
  method AggregateRequests(now: int, logs: seq<Log>, buckets: map<int, string>, names: map<int, string>)
    returns (report: Report, env: Env)
    ensures env.now == now && env.names == names && IsIndex(env.nameToId, buckets)
    ensures IsReport(report, env, buckets, logs)
  {
    var index := IndexNames(buckets);
    env := Env(now, index, names);
    var agg := Collect(env, logs);
    ghost var v := agg.Contents();
    var view := agg.counters.Read();
    var platform, daily, accounts := WriteCounters(view, env, v, logs);
    var bucketRows, prefixRows := WriteBuckets(view, agg.prefixes, agg.bucketAccount, buckets, env, v, logs);
    var lines := agg.users.Read();
    var users := Write(lines, Users, l => l);
    UsersAreShown(v, env, logs, lines, users);
    report := Report(platform, daily, accounts, bucketRows, users, prefixRows);
  }
}
